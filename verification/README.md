# RydTrip backend: verified model

RydTrip's backend is an at-least-once, event-driven ride dispatch system. Ride requests travel over
Kafka to a dispatch service, which reserves a driver with an expiring Redis key, and to a trip
service, which keeps a row, an audit log and an idempotency ledger per ride in Postgres. This
project models that protocol and proves what it keeps over every run.

Verify everything with `dafny verify dfyconfig.toml`.

## How it is built

Protocols are step systems: a state, a list of step labels and a total function `Exec`, in which a
step that is not enabled leaves the state alone. A run is therefore any list of steps, and each
theorem speaks about all lists, which covers every interleaving, crash, duplicate delivery, retry,
lost reply and replay. Stateful services and stores are classes whose methods are proved equal to
the functions the theorems are about.

| file | models |
|---|---|
| `RideStateMachine.dfy`, `DriverStateMachine.dfy` | the two status tables |
| `TripStore.dfy` | rides, audit log, ledger; `TripsRepository` with rollback |
| `TripHandlers.dfy` | the trip handlers as interleaving processes: read and guard in one step, write in a later one |
| `TripGuarantees.dfy` | what holds under every interleaving |
| `TripLifecycle.dfy` | what holds when handlers on one ride do not overlap, and exactly what breaks when they do |
| `DriverSyncs.dfy` | the PATCHes of the trip service, and when a freed driver's ride has really ended |
| `RidePatches.dfy` | the PATCHes of one ride whose handlers do not overlap: whom they name and which commits they report |
| `DuplicateReservations.dfy` | what a driver.reserved handler does when its event arrives again |
| `TripService.dfy` | the methods of `TripsService`, and that an undisturbed process does the same |
| `ServiceAnswers.dfy` | for each call of the trip service, exactly when it is carried out and what it then writes, in the row's columns |
| `EventConsumer.dfy` | the retry loop, backoff and parking of one message |
| `EventSchema.dfy` | the shared vocabulary of events and replies |
| `Partition.dfy` | a partition with offsets, crashes, parking and replays, whatever the handler does |
| `TripPipeline.dfy` | that partition with the trip handlers as the work |
| `EventEffects.dfy` | what a message does to the tables, field by field, and what becomes of one that is left alone |
| `ParkedReservations.dfy` | duplicate driver.reserved messages on that partition |
| `Reservations.dfy`, `Dispatch.dfy` | the reservation keys and the race of concurrent matching runs for them |
| `DispatchLedger.dfy` | the matching runs behind the expiring idempotency ledger of dispatch |
| `DispatchPipeline.dfy` | the partition with dispatch behind it |
| `Provenance.dfy` | dispatch and the trip pipeline together |
| `DriverMirror.dfy`, `PatchWitnesses.dfy` | the driver status mirror under the PATCHes of any run, lost and overtaken ones included |
| `CircuitBreaker.dfy`, `GeoIndex.dfy`, `RateLimit.dfy` | the three timed structures against plain specifications |
| `ReplayDlq.dfy` | the dead-letter replay script |
| `Options.dfy`, `Arithmetic.dfy` | optional values, and small facts about products and sizes |

## What the code does that its comments do not say

- "Every status change is legal" fails when a handler writes after another has changed the row it
  read: `TripLifecycle.CancelledRideCanBeRevived` is a run, `TripLifecycle.WriteLegalIff` the exact
  condition for one write and `TripLifecycle.LifecycleIff` for a whole run.
- A driver.reserved event with an empty driver id matches the ride and attaches nobody
  (`TripGuarantees.EmptyDriverIdMatchesNobody`, `TripGuarantees.DriverSetIffMatched`).
- A duplicate driver.reserved is retried and parked, not skipped, because its guard runs before the
  ledger (`ParkedReservations.DuplicateReservationIsParked`); it is skipped exactly when its guard
  read the row before the first transition of the ride (`DuplicateReservations.DuplicateSkippedIff`).
- A cancelling event handler frees the driver before its transaction commits
  (`DriverSyncs.DriverFreedByRolledBackCancel`); freed drivers' rides have ended in every run exactly
  when no cancellation comes by event (`DriverSyncs.FreedRidesEndedIff`).
- A PATCH is refused when the call it belongs to is overtaken by a later one on the ride
  (`PatchWitnesses.OvertakenPatchIsRefused`, `DriverMirror.SerialPatchLegalIff`), and a rolled-back
  cancellation leaves mirror and ride apart (`PatchWitnesses.RolledBackCancelUncouples`,
  `DriverMirror.MirrorFollowsRideIff`).
- Messages can be lost: silently with `maxAttempts` below one, and in a group that has yet to commit
  its first offset by a crash or a failed park (`TripPipeline.NoMessageLostIff`,
  `DispatchPipeline.NoRequestLostIff`).
- A half-open breaker admits every overlapping call (`CircuitBreaker.OverlappingTrialsAllAdmitted`),
  and exactly one trial only if no second call starts before a completion
  (`CircuitBreaker.OneTrialIff`); a threshold below one breaks the state
  description from the start (`CircuitBreaker.RefinesHistoryIff`).
- A failed EXISTS reply evicts a live driver from the geo index (`GeoIndex.EvictsOnlyStaleIff`).
- One ride can hold two drivers' reservations after a redelivery (`Dispatch.OneRideTwoDrivers`), and
  a ride is sure to have at most one exactly if its matching is begun at most once
  (`Dispatch.OneDriverPerRideIff`).
- If dispatch's RESERVED PATCH is lost, the driver reads AVAILABLE all through the trip
  (`DriverMirror.LostPatches`).
- The replay script hangs unless a record stands at or after the place its watermark counts to, so
  also when old dead letters have expired (`ReplayDlq.ReplayEndsIff`), and a JSON `null` message
  cannot be replayed at all (`ReplayDlq.NullIsUnrecoverable`).

## Assumptions

Set-if-absent with expiry is one atomic Redis command; a Postgres transaction is all or nothing; an
offset is committed only after its message's callback resolved; GEOSEARCH answers the nearest
`limit` members in ascending order, ties in any order. Clocks do not go backwards. Clock readings,
random draws, Kafka and Redis replies and the great-circle distance of a route are inputs.

## Model

| member | source | states |
|---|---|---|
| `RideStateMachine.PathFacts` | services/trip-service/src/trips/ride-state-machine.ts:12-25 | a walk of the table from REQUESTED has at most seven entries, repeats none, and only its last can be terminal |
| `RideStateMachine.PathPassesMatch` | services/trip-service/src/trips/ride-state-machine.ts:12-21 | a legal history that got to an active status contains MATCHED |
| `RideStateMachine.SourcesOf` | services/trip-service/src/trips/ride-state-machine.ts:12-21 | the statuses from which each status may be entered |
| `TripStore.EventTypeRoundTrip` | services/trip-service/src/trips/trips.repository.ts:42-63 | each audit label belongs to one status and each status to one label |
| `TripStore.MoveKeepsRow` | services/trip-service/src/trips/trips.repository.ts:173-211 | one update-plus-audit write keeps status, reason, otp, fare, distance and driver tied to the log, from any prior status |
| `TripStore.AppliedConsistent` | services/trip-service/src/trips/trips.repository.ts:95-211 | a committed creation or transition keeps every row tied to its own log |
| `TripStore.TripsRepository.Create` | services/trip-service/src/trips/trips.repository.ts:95-119 | inserts row and first audit entry, or reports the unique violation and changes nothing |
| `TripStore.TripsRepository.Transition` | services/trip-service/src/trips/trips.repository.ts:173-211 | writes the new status unconditionally with its audit entry, or fails on a missing ride and changes nothing |
| `TripStore.TripsRepository.RunIdempotent` | services/trip-service/src/trips/trips.repository.ts:80-93 | ledger row and effect commit together or all three tables are restored; a unique violation of either kind is a duplicate |
| `TripHandlers.ExecKeepsInv` | services/trip-service/src/trips/trips.service.ts:47-215 | every step of every handler, failures included, keeps the database invariant, and nothing recorded is ever removed |
| `TripGuarantees.ExactlyOnceEffect` | services/trip-service/src/trips/trips.repository.ts:80-93 | in every run the tables are the fold of the commits, each event id commits at most once, the ledger is exactly those ids, and each commit is the work of a call with that id |
| `TripGuarantees.RedeliveryChangesNothing` | services/trip-service/src/trips/trips.repository.ts:69-79 | redelivering ledgered events in any order, number and failure pattern changes no table |
| `TripGuarantees.LostReplyCommits` | services/trip-service/src/trips/trips.repository.ts:80-93 | a commit whose reply is lost leaves the tables as if it had come, throws and sends no PATCH |
| `TripGuarantees.CodeIsReadAgain` | services/trip-service/src/trips/trips.service.ts:155-158 | a start in flight is judged by the code stored when it reads the code, not when it was guarded |
| `TripGuarantees.RunKeepsCreations` | services/trip-service/src/trips/trips.repository.ts:95-119 | in every run each ride that was created is still there with the rider and route it was created with |
| `TripGuarantees.RowFollowsHistory` | services/trip-service/src/trips/trips.repository.ts:173-211 | under every interleaving the row is a function of its audit log, and its driver the one of the latest match that named one |
| `TripGuarantees.DriverSetIff` | services/trip-service/src/trips/trips.repository.ts:192 | the driver column is set exactly when a committed match carried a non-empty driver id |
| `TripGuarantees.DriverSetIffMatched` | services/trip-service/src/trips/trips.repository.ts:173-211 | ride.matched is in the audit log exactly when a commit moved the ride to MATCHED, and the driver column is set exactly when it is, unless some driver.reserved call on the ride has an empty driver id |
| `TripGuarantees.EmptyDriverIdMatchesNobody` | services/trip-service/src/trips/ride-events.consumer.ts:37-40 | a run to a MATCHED row without a driver, for the empty id |
| `TripGuarantees.OtpComesFromAccept` | services/trip-service/src/trips/trips.service.ts:98-103 | a stored pickup code was drawn by an accept of that ride |
| `TripGuarantees.MintOtpInjective` | services/trip-service/src/trips/trips.service.ts:101 | different draws give different codes |
| `TripLifecycle.SerialLifecycle` | services/trip-service/src/trips/trips.service.ts:239-254 | without overlap on the ride its log is a table walk from REQUESTED ending in the row's status, at most seven entries |
| `TripLifecycle.SerialStepsLawful` | services/trip-service/src/trips/trips.service.ts:149-164 | without overlap each step leaves finished rides and set drivers alone, and a trip starts only after a match, by the commit of a start call that itself carries the stored code and whose caller is the ride's driver or not given |
| `TripLifecycle.SerialOutcomeFinal` | services/trip-service/src/trips/ride-state-machine.ts:19-20 | a finished ride and an attached driver stay as they are for the rest of a serial run |
| `TripLifecycle.WriteLegalIff` | services/trip-service/src/trips/trips.service.ts:203-206 | a handler past its guard writes whatever was committed since; the write is legal exactly when the ride still has the status it read, or it cancels and the ride is in MATCHING, MATCHED, DRIVER_ARRIVING or DRIVER_ARRIVED |
| `TripLifecycle.LifecycleIff` | services/trip-service/src/trips/trips.service.ts:239-254 | in every run the ride's log is a table walk exactly when each transition committed on it met that condition at its commit |
| `TripLifecycle.CancelledRideCanBeRevived` | services/trip-service/src/trips/trips.service.ts:98-103 | a run in which an accept overwrites CANCELLED |
| `DriverSyncs.HttpSyncsFollowCommits` | services/trip-service/src/trips/trips.service.ts:159-162 | in every run a PATCH of an HTTP action follows that action's own commit, which left the driver it names in the ride's column, and one that frees the driver follows the commit that ended his ride |
| `DriverSyncs.RunSentOnce` | services/trip-service/src/trips/trips.service.ts:203-215 | a call sends at most one PATCH, in every run |
| `DriverSyncs.DriverFreedByRolledBackCancel` | services/trip-service/src/trips/trips.service.ts:203-215 | for any event id, a run in which the in-transaction PATCH went out and the cancellation did not commit |
| `DriverSyncs.FreedRidesEndedIff` | services/trip-service/src/trips/trips.service.ts:62-63 | all runs whose event-borne cancellations carry ids from a given set have each freed driver's own ride ended by the call that freed him, exactly when the set is empty |
| `TripService.UninterruptedHandler` | services/trip-service/src/trips/trips.service.ts:47-215 | an undisturbed process leaves the tables, PATCHes and answer that the service method leaves |
| `ServiceAnswers.RequestAnswers` | services/trip-service/src/trips/trips.service.ts:47-59 | done exactly when neither event nor ride is known; the new row in its columns, skipped otherwise |
| `ServiceAnswers.ReserveAnswers` | services/trip-service/src/trips/trips.service.ts:78-89 | done exactly for a known MATCHING ride and a fresh event; attaches a non-empty driver; otherwise the first failing check, the ledger last |
| `ServiceAnswers.CancelAnswers` | services/trip-service/src/trips/trips.service.ts:203-215 | done exactly for a known ride from MATCHING to DRIVER_ARRIVED; the reason column, the audit reason, the AVAILABLE PATCH |
| `ServiceAnswers.CancelEventAnswers` | services/trip-service/src/trips/trips.service.ts:62-69 | the same for ride.cancelled and driver.rejected, the ledger first |
| `ServiceAnswers.AcceptAnswers` | services/trip-service/src/trips/trips.service.ts:98-103 | done exactly for a known MATCHED ride; the stored code is four digits that read back as the number drawn |
| `ServiceAnswers.ArrivedAnswers` | services/trip-service/src/trips/trips.service.ts:135-137 | done exactly for a known DRIVER_ARRIVING ride; only the status changes |
| `ServiceAnswers.StartAnswers` | services/trip-service/src/trips/trips.service.ts:149-164 | done exactly for a known DRIVER_ARRIVED ride, a caller who is absent, empty or its driver, and the non-empty stored code; otherwise nothing changes and the first failing check answers |
| `ServiceAnswers.CompleteAnswers` | services/trip-service/src/trips/trips.service.ts:181-191 | done exactly for a known IN_PROGRESS ride; the fare is the whole number nearest to 40 plus 12 per kilometre |
| `DuplicateReservations.DuplicateSkippedIff` | services/trip-service/src/trips/trips.service.ts:78-86 | a driver.reserved process that committed nothing and met no infrastructure failure is skipped exactly when its guard read the ride before its first transition committed; otherwise it throws |
| `DuplicateReservations.LateReservationNeverReturns` | services/trip-service/src/trips/trips.service.ts:79-81 | once a transition of the ride has committed, no driver.reserved attempt that has yet to read the row returns or commits, in any continuation |
| `TripService.DuplicateReservationThrows` | services/trip-service/src/trips/trips.service.ts:78-83 | in any reachable state, an undisturbed delivery of a driver.reserved whose event has been applied throws and changes nothing |
| `TripService.TripsService.HandleRideRequested` | services/trip-service/src/trips/trips.service.ts:47-59 | tables and answer are those of `Handle` |
| `TripService.TripsService.HandleDriverReserved` | services/trip-service/src/trips/trips.service.ts:78-89 | guard first, then the ledgered match |
| `TripService.TripsService.CancelWith` | services/trip-service/src/trips/trips.service.ts:203-215 | guarded cancellation, alone or inside the ledgered transaction, and its one PATCH |
| `TripService.TripsService.HandleRideCancelled` | services/trip-service/src/trips/trips.service.ts:62-69 | an absent reason is RIDER_CANCELLED, a falsy one is not written |
| `TripService.TripsService.HandleDriverRejected` | services/trip-service/src/trips/trips.service.ts:111-120 | cancellation for NO_DRIVERS_AVAILABLE through the ledger |
| `TripService.TripsService.Accept` | services/trip-service/src/trips/trips.service.ts:98-103 | guarded move that stores the minted code |
| `TripService.TripsService.Start` | services/trip-service/src/trips/trips.service.ts:149-164 | tables, PATCH and answer are those of `Handle`, which `ServiceAnswers.StartAnswers` states in the row's columns |
| `TripService.TripsService.Complete` | services/trip-service/src/trips/trips.service.ts:181-191 | guarded move that stores distance and fare, then the AVAILABLE PATCH |
| `EventConsumer.Consumer.EachMessage` | libraries/event-schema/src/kafka/consumer.ts:148-217 | the handler runs until its first success, at most n times, and the waits add up to exactly the drawn fractions of doubling, capped delays; otherwise one record, given field by field, is parked, or the callback throws as topic creation or the send fails |
| `EventConsumer.CapsNeverDecrease` | libraries/event-schema/src/kafka/consumer.ts:39-42 | backoff ceilings never decrease and never exceed the maximum |
| `EventConsumer.CapDoubles` | libraries/event-schema/src/kafka/consumer.ts:39-42 | the ceiling starts at the base delay and doubles until it meets the maximum |
| `EventConsumer.SleptBounds` | libraries/event-schema/src/kafka/consumer.ts:39-42 | the waits are at most the maximum each and at most the doubling base delay in all |
| `Partition.ExecSettles` | libraries/event-schema/src/kafka/consumer.ts:148-217 | a step of the partition keeps every offset behind the reader empty, parked or handled, if the service vouches for what it passes and returns from |
| `Partition.ParkedIff` | libraries/event-schema/src/kafka/consumer.ts:163-193 | a message is parked exactly when a record with its group, topic, offset and key, and either its text or its envelope, is on the dead-letter topic |
| `Partition.ParkingRecovers` | libraries/event-schema/src/kafka/consumer.ts:198-217 | key and value of a parked message can be told from its record |
| `Partition.AttemptsFollowTheLoop` | libraries/event-schema/src/kafka/consumer.ts:175-193 | the steps on one message pass it unrecorded after its first successful attempt, and hold its record after the last one, as `EachMessage` does |
| `Partition.ReplayBringsBack` | scripts/replay-dlq.ts:100-104 | a replay appends the parked message itself if it had an envelope |
| `TripPipeline.PipelineRefinesTrips` | libraries/event-schema/src/kafka/consumer.ts:148-196 | seen from the trip service, a delivery run is one of its own runs |
| `TripPipeline.NoMessageLostIff` | libraries/event-schema/src/kafka/consumer.ts:128-217 | every offset since the group subscribed and below its committed one is empty, handled or parked in every run, exactly when at least one attempt is configured and the broker already held an offset of the group |
| `TripPipeline.NothingLostSinceBase` | libraries/event-schema/src/kafka/consumer.ts:148-217 | with at least one attempt, whatever the group, nothing is lost from where it last began reading without an offset up to its committed one |
| `TripPipeline.DeliveredExactlyOnce` | services/trip-service/src/trips/ride-events.consumer.ts:83-118 | for a committed, unparked message exactly one commit carries its event id, made by a call with that id, and it is the work of the call the message makes if no other shares the id, in the message's own fields as `EventEffects.MessageHadItsEffect` says; or its type is ignored, or its ride already existed |
| `EventEffects.MessageHadItsEffect` | services/trip-service/src/trips/ride-events.consumer.ts:83-118 | a committed, unparked message of a known type, with an event id of no other call, has had exactly one commit, which does what its payload fields say; a requested ride is in the table with its rider and route, unless it was there before |
| `EventEffects.JobIff` | services/trip-service/src/trips/ride-events.consumer.ts:26-46 | which messages the handler rejects and which it ignores |
| `EventEffects.RejectedIsParked` | services/trip-service/src/trips/ride-events.consumer.ts:83-118 | a message the handler cannot be given or rejects is never passed without a record |
| `EventEffects.CrashEndsHandler` | libraries/event-schema/src/kafka/consumer.ts:148-196 | a crash ends the handler at hand, changes no table and resumes at the committed offset |
| `EventEffects.IgnoredIsPassed` | services/trip-service/src/trips/ride-events.consumer.ts:83-118 | an event of another type is passed at once and changes nothing |
| `EventEffects.LeftAlone` | libraries/event-schema/src/kafka/consumer.ts:175-193 | a message left alone is passed unrecorded with the effect its handler has, exactly when the handler answers no error; otherwise it is parked and no table or PATCH changes |
| `EventEffects.RunRecords` | libraries/event-schema/src/kafka/consumer.ts:198-217 | in every run each dead-letter record describes the message at its offset |
| `TripPipeline.PipelineExactlyOnce` | services/trip-service/src/trips/trips.repository.ts:80-93 | through crashes, retries and replays the tables are the fold of commits with distinct event ids |
| `ParkedReservations.LateReservationIsParked` | services/trip-service/src/trips/trips.service.ts:78-83 | in every continuation, a group with a committed offset gets past a driver.reserved for a ride that some transition has committed on only by parking it |
| `ParkedReservations.DuplicateReservationIsParked` | libraries/event-schema/src/kafka/consumer.ts:173-193 | the same for a redelivered driver.reserved whose event is in the ledger, when no other call shares its id |
| `ParkedReservations.StaleReservationIsParked` | libraries/event-schema/src/kafka/consumer.ts:173-193 | left to itself such a message uses its attempts and is parked, tables unchanged |
| `Reservations.DriverReservationStore.TryReserve` | libraries/redis-client/src/driver-reservation-store.ts:22-25 | wins exactly when the key is free, and then writes ride and expiry |
| `Reservations.DriverReservationStore.GetReservation` | libraries/redis-client/src/driver-reservation-store.ts:27-29 | the ride of an unexpired key |
| `Dispatch.ReservationsSeparated` | libraries/redis-client/src/driver-reservation-store.ts:22-25 | over all interleavings two grants of a driver are at least the TTL apart |
| `Dispatch.KeyInForceIff` | libraries/redis-client/src/driver-reservation-store.ts:22-29 | in every run a driver's key is in force exactly when a grant of him is less than a TTL old, and it holds that grant's ride |
| `Dispatch.SeparationIsTight` | libraries/redis-client/src/driver-reservation-store.ts:22-25 | a run that reserves a driver again exactly one TTL later, for any TTL |
| `Dispatch.DispatchOutcome` | services/dispatch-service/src/dispatch/dispatch.service.ts:72-111 | a returning run published once; a match is the first candidate free when tried, a rejection means all were held when tried |
| `Dispatch.AtMostOneKeyPerRun` | services/dispatch-service/src/dispatch/dispatch.service.ts:77-101 | any run, however it ends, wrote at most one key and published at most one event |
| `Dispatch.PublicationsBacked` | services/dispatch-service/src/dispatch/dispatch.service.ts:86-93 | every published match has the grant of that driver to that ride by that run |
| `Dispatch.PatchesFollowGrants` | services/dispatch-service/src/dispatch/dispatch.service.ts:86 | in every run each RESERVED PATCH follows a grant of that driver to that ride by that run, which sends no other |
| `Dispatch.MatchTellsDriver` | services/dispatch-service/src/dispatch/dispatch.service.ts:86-93 | in every run, one that has published a match has sent the PATCH of its own driver and ride if its PATCHes are sent, and none if they are not |
| `Dispatch.GrantsAtMostBegins` | services/dispatch-service/src/dispatch/dispatch.service.ts:77-101 | in every run a ride is reserved drivers at most as often as its matching was begun |
| `Dispatch.OneRideTwoDrivers` | services/dispatch-service/src/dispatch/ride-requested.consumer.ts:71-82 | a run in which a redelivered request reserves a second driver for the same ride |
| `Dispatch.OneDriverPerRideIff` | services/dispatch-service/src/dispatch/ride-requested.consumer.ts:71-82 | all runs that begin a ride's matching at most n times reserve it at most one driver exactly when n is at most one |
| `Dispatch.DispatchService.HandleRideRequested` | services/dispatch-service/src/dispatch/dispatch.service.ts:72-111 | with other hosts writing between the tries: reserves the first candidate found free, sends his RESERVED PATCH and publishes the match, or publishes the rejection; throws if the search, a Redis command or the publication fails or loses its reply, with exactly the keys, PATCHes and events then left behind |
| `DispatchLedger.RedeliveryAccounting` | services/dispatch-service/src/dispatch/ride-requested.consumer.ts:71-82 | over all runs the drivers reserved and the outcomes published for an event are each at most its failed deliveries plus its marks plus those underway, and its marks at most its outcomes |
| `DispatchLedger.SequentialAccounting` | services/dispatch-service/src/dispatch/ride-requested.consumer.ts:71-82 | when deliveries of the event do not overlap at most one is underway |
| `DispatchLedger.NothingWithinTtlOfMark` | libraries/redis-client/src/idempotency-store.ts:26-33 | when deliveries of an event do not overlap, every reservation, publication and mark for it after one of its marks is at least the ledger TTL later |
| `DispatchLedger.SkippedIff` | services/dispatch-service/src/dispatch/ride-requested.consumer.ts:71-82 | in every run a fresh delivery is skipped exactly when its event has been marked within the ledger TTL, and otherwise begins a matching run for its ride |
| `DispatchLedger.LedgerTtlIsTight` | libraries/redis-client/src/idempotency-store.ts:26-33 | a run that publishes again for an event exactly one ledger TTL after its mark |
| `DispatchLedger.RideRequestedConsumer.Handle` | services/dispatch-service/src/dispatch/ride-requested.consumer.ts:71-82 | skips an event in the ledger without calling dispatch; otherwise does what the dispatch call does and marks the event exactly when that returned and Redis executed the mark |
| `DispatchPipeline.PipelineRefinesLedger` | services/dispatch-service/src/dispatch/ride-requested.consumer.ts:61-83 | seen from dispatch, a run with the partition is one of the runs of its ledger and matching |
| `DispatchPipeline.NoRequestLostIff` | services/dispatch-service/src/dispatch/ride-requested.consumer.ts:61-83 | every offset since the group subscribed and below its committed one is empty, parked, or names a ride and a route and has an outcome published for its event in every run, exactly when at least one attempt is configured and the broker already held an offset of the group; for its own ride by `DispatchPipeline.RequestGetsItsOutcome` |
| `DispatchPipeline.RequestGetsItsOutcome` | services/dispatch-service/src/dispatch/ride-requested.consumer.ts:61-83 | a committed message, neither empty nor parked, has an outcome published for the ride in its payload if its event is delivered for no other ride |
| `DispatchPipeline.BegunForItsRide` | services/dispatch-service/src/dispatch/ride-requested.consumer.ts:71-82 | a matching run the partition begins is for the ride and the event of its message |
| `DispatchPipeline.ThrowsIff` | services/dispatch-service/src/dispatch/ride-requested.consumer.ts:61-70 | the handler throws at once exactly when the ride id or the route is missing or its ledger check fails |
| `DispatchPipeline.AttemptReturns` | services/dispatch-service/src/dispatch/ride-requested.consumer.ts:71-82 | a request whose event is marked and acknowledged is passed unrecorded |
| `DispatchPipeline.AttemptThrows` | services/dispatch-service/src/dispatch/ride-requested.consumer.ts:71-82 | a delivery that threw is tried again, passed as marked meanwhile, or parked after the last attempt |
| `Provenance.DriverWasGranted` | services/dispatch-service/src/dispatch/dispatch.service.ts:77-93 | a row's driver was reserved by dispatch for that ride, through delivery, parking, replay and crashes |
| `Provenance.MatchesReachTheTopic` | services/dispatch-service/src/dispatch/dispatch.service.ts:88-93 | each published match is on the trip service's partition, keyed by its ride, with its ride and driver |
| `Provenance.SharedDriverGrantsApart` | services/trip-service/src/trips/trips.service.ts:78-83 | two rides with one driver had grants at least a TTL apart |
| `DriverMirror.DriversService.UpdateStatus` | services/driver-service/src/drivers/drivers.service.ts:93-106 | writes exactly the legal targets of known drivers |
| `DriverMirror.ReservationCouples` | services/dispatch-service/src/dispatch/dispatch.service.ts:113-128 | consuming driver.reserved attaches the driver without a PATCH, and his mirror fits the ride exactly when dispatch's RESERVED PATCH arrived and found him AVAILABLE, or he was RESERVED already |
| `RidePatches.RunPatchesOk` | services/trip-service/src/trips/trips.service.ts:203-215 | while handlers on the ride do not overlap, its PATCHes name its driver, its commits climb, and with none lost every start and end it committed has been reported or is about to be |
| `DriverMirror.MirrorFollowsRideIff` | services/trip-service/src/trips/trips.service.ts:203-215 | over the runs of interleaving processes, without overlap between guard and write and with no PATCH lost, the mirror fits the ride's status whenever no call is about to send its PATCH, exactly when the ride is over or nothing has freed the driver |
| `DriverMirror.MirrorFollowsRide` | services/trip-service/src/trips/trips.service.ts:203-215 | so it always fits then if no cancellation is rolled back after its PATCH |
| `DriverMirror.MirrorNeverAhead` | services/trip-service/src/trips/trips.service.ts:224-237 | with PATCHes lost in any pattern, in such a run an AVAILABLE mirror means the ride is over and an ON_TRIP one that the trip has started |
| `DriverMirror.PatchLegalIff` | services/driver-service/src/drivers/drivers.service.ts:93-106 | in every run a PATCH is legal exactly when none that frees the driver, and no second start, was sent before it |
| `DriverMirror.SerialPatchLegalIff` | services/driver-service/src/drivers/drivers.service.ts:93-106 | without overlap between guard and write and with none rolled back, a PATCH is legal exactly when no call that committed on the ride later has sent its own before it |
| `PatchWitnesses.RolledBackCancelUncouples` | services/trip-service/src/trips/trips.service.ts:203-215 | a run that leaves the mirror AVAILABLE and the ride MATCHED |
| `PatchWitnesses.OvertakenPatchIsRefused` | services/trip-service/src/trips/trips.service.ts:159-191 | a run without overlap between guard and write in which the completion's PATCH overtakes the start's, which is refused |
| `DriverMirror.MirrorIsPatchesApplied` | services/trip-service/src/trips/trips.service.ts:224-237 | in every run, from any mirror and with any PATCHes lost, the mirror moves legally and ends as the start and end PATCHes that arrived leave it, in whatever order they were sent |
| `DriverMirror.LostPatches` | services/dispatch-service/src/dispatch/dispatch.service.ts:113-128 | in every run, from an AVAILABLE driver: the exact mirror if dispatch's RESERVED PATCH arrived, by which later PATCHes did; AVAILABLE all through the trip if it was lost |
| `DriverMirror.ReservableIffAvailable` | services/driver-service/src/drivers/driver-state-machine.ts:7-17 | RESERVED is accepted only from AVAILABLE |
| `DriverStateMachine.SourcesOf` | services/driver-service/src/drivers/driver-state-machine.ts:7-17 | the statuses from which each driver status may be entered |
| `CircuitBreaker.RefinesHistory` | libraries/circuit-breaker/src/circuit-breaker.ts:46-83 | with overlapping calls the state is the function of trailing failures and last failure time |
| `CircuitBreaker.RefinesHistoryIff` | libraries/circuit-breaker/src/circuit-breaker.ts:42 | that specification holds for all histories exactly when the threshold is at least one |
| `CircuitBreaker.OverlappingTrialsAllAdmitted` | libraries/circuit-breaker/src/circuit-breaker.ts:53-60 | while half-open, every start is admitted until a completion |
| `CircuitBreaker.OneTrialIff` | libraries/circuit-breaker/src/circuit-breaker.ts:28-29 | after any history, a half-open episode that begins with a start admits exactly one call if and only if no second start arrives before a completion of any call |
| `CircuitBreaker.SerialTrialSettles` | libraries/circuit-breaker/src/circuit-breaker.ts:28-29 | one at a time, the one trial closes the circuit or starts a full new timeout |
| `CircuitBreaker.FailureLoadBound` | libraries/circuit-breaker/src/circuit-breaker.ts:53-83 | serial failing calls invoke the function at most threshold + T/resetTimeoutMs times |
| `CircuitBreaker.Circuit.ExecuteCall` | libraries/circuit-breaker/src/circuit-breaker.ts:53-70 | the fields after a whole call are those of the breaker value |
| `CircuitBreaker.Circuit.OnFailure` | libraries/circuit-breaker/src/circuit-breaker.ts:77-83 | counts, and trips when half-open or at the threshold |
| `CircuitBreaker.Circuit.GetState` | libraries/circuit-breaker/src/circuit-breaker.ts:46-51 | an open circuit reads half-open once the timeout has passed |
| `GeoIndex.SearchIsIdealPrefix` | libraries/redis-client/src/driver-geo-index.ts:54-109 | unless an EXISTS failed for a live driver, a search answers a prefix of the ideal list of live in-range drivers and keeps every live driver |
| `GeoIndex.EvictsOnlyStaleIff` | libraries/redis-client/src/driver-geo-index.ts:87-106 | only stale members are evicted exactly when no EXISTS failed for a live one |
| `GeoIndex.QuietSearchIsIdeal` | libraries/redis-client/src/driver-geo-index.ts:102-108 | a search that evicts nobody answered the ideal top-limit list |
| `GeoIndex.SearchesConverge` | libraries/redis-client/src/driver-geo-index.ts:54-109 | at a fixed time, with every EXISTS answered, at most as many answers fall short as there were stale members |
| `GeoIndex.SearchFollowsUpdates` | libraries/redis-client/src/driver-geo-index.ts:40-151 | over any history of updates and searches, a listed driver whose replies came is answered exactly when the search comes before his last update has run out, and has otherwise left the index |
| `GeoIndex.UnansweredAndUnlisted` | libraries/redis-client/src/driver-geo-index.ts:87-106 | a listed driver without a reply leaves, one not listed stays |
| `GeoIndex.HeartbeatIsLastUpdate` | libraries/redis-client/src/driver-geo-index.ts:40-47 | a driver is in the index, where his last update put him, exactly when no search since has dropped him |
| `GeoIndex.DriverGeoIndex.UpsertLocation` | libraries/redis-client/src/driver-geo-index.ts:40-47 | stores the position and a heartbeat that makes the driver live |
| `GeoIndex.DriverGeoIndex.FindNearby` | libraries/redis-client/src/driver-geo-index.ts:54-109 | answers exactly the listed drivers whose EXISTS was answered before their heartbeat ran out, and evicts the rest; the answer is an ideal prefix unless an EXISTS failed for a live driver |
| `GeoIndex.DriverGeoIndex.FindAnyOnline` | libraries/redis-client/src/driver-geo-index.ts:118-151 | answers exactly the live listed members that have a position and evicts the others; an empty answer shrinks the index |
| `RateLimit.BucketHasOnePolicy` | services/api-gateway/src/rate-limit/rate-limit.guard.ts:38-45 | requests that share a bucket share caller, limit and window |
| `RateLimit.PolicyIff` | services/api-gateway/src/rate-limit/rate-limit.guard.ts:18-45 | which route meets which limit, each per minute |
| `RateLimit.DecisionIsOwn` | services/api-gateway/src/rate-limit/rate-limit.guard.ts:61-68 | sweeps and other buckets change no decision |
| `RateLimit.WindowQuota` | services/api-gateway/src/rate-limit/rate-limit.guard.ts:87-103 | a window's counter is the number admitted in it, at most the quota |
| `RateLimit.SlidingBound` | services/api-gateway/src/rate-limit/rate-limit.guard.ts:82-103 | any closed interval admits at most (ceil(length/window)+1) quotas, less one request unless it spans a whole number of windows; so two quotas in one window's length |
| `RateLimit.SlidingBoundIsTight` | services/api-gateway/src/rate-limit/rate-limit.guard.ts:87-103 | that many are reached for every limit, window and length |
| `RateLimit.RetryAfterSuffices` | services/api-gateway/src/rate-limit/rate-limit.guard.ts:93-100 | after Retry-After seconds (section 10.2.3 of RFC 9110) the window is over, one second less is not enough, and a rejection changes nothing |
| `RateLimit.RateLimitGuard.CanActivate` | services/api-gateway/src/rate-limit/rate-limit.guard.ts:71-104 | decision and new counters, with health paths exempt |
| `RateLimit.RateLimitGuard.SweepExpired` | services/api-gateway/src/rate-limit/rate-limit.guard.ts:61-68 | deletes exactly the expired counters |
| `ReplayDlq.ReplayAll` | scripts/replay-dlq.ts:69-117 | sends the records with envelopes in order, counts them, says whether the awaited promise resolves, and goes on with the messages that arrive before the consumer has disconnected |
| `ReplayDlq.ReplayEndsIff` | scripts/replay-dlq.ts:57-111 | for any watermark the script ends exactly when a record stands at an index of at least the watermark less one; so never when fewer messages are delivered than it counts |
| `ReplayDlq.OneEntryMore` | scripts/replay-dlq.ts:77-108 | what each further dead letter sends or skips |
| `ReplayDlq.CountsAddUpIff` | scripts/replay-dlq.ts:77-88 | replayed + skipped = seen exactly when no message was empty |
| `ReplayDlq.ParkReplayRoundTrip` | libraries/event-schema/src/kafka/consumer.ts:198-217 | parking then replaying returns each message that had an envelope, in order, with its topic, key and envelope |
| `ReplayDlq.NullIsUnrecoverable` | libraries/event-schema/src/kafka/consumer.ts:182-188 | a parked JSON null carries nothing to replay |

## Left out

- Great-circle trigonometry and floating point: a route's distance is a given real number.
- Row locks and isolation levels of Postgres: a transaction's writes appear at its commit, with the rows read earlier possibly outdated.
- Cancellation reasons outside the enumeration, which the Kafka payload guard lets through as any string.
- JSON documents other than objects and `null`, such as numbers and strings.
- Rebalancing to a second consumer while the first still runs a message: covered for the database by arbitrary other processes, not for the offsets.
- The gap between read and write in the driver service: a PATCH is guarded and applied in one step.
- Payloads with a pickup but no destination or the reverse: a route is present or absent as a whole.
- The wiring of the circuit breakers into dispatch: an open breaker is one of the ways a command may be refused.
- The gap between liveness check and ZREM, and partial failures of the location pipeline: each geo operation is one step.
- `release` of a reservation as a step of the race, because no service calls it.
- JWT checks, proxying, registration, login, profiles, history listings, metrics, tracing, deployment and the web applications.
