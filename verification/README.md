# Haven: a verified model of its reservation service

Haven takes reservations of shared resources. This project models the parts of it that must stay
right under retries, crashes and races, and proves what they guarantee:

- **Creation.** A creation handler claims an idempotency record, reads the resource, counts
  reserved units, persists a reservation with two outbox events in one transaction, and completes
  the record; a retry recovers what an earlier handler left behind.
- **Edits.** Approval, rejection, cancellation and extension load an aggregate, change it and
  write it back under its token.
- **The outbox.** Publishers claim pending events, send them to a broker, and mark or release them.
- **Storage forms.** Canonical encodings, the 30-byte UTC timestamp of section 5.6 of RFC 3339,
  the three kinds of documents with their JSON forms, and the string queries over them.

`World.dfy` is the service as a state machine. One action is one access to a store or to the
broker by one process, the start of a process, or its crash; a store operation may fail before or
after it took effect, may report either ambiguously, and may report a conflict with its own write
when the client repeats it. `Run` of any list of actions is any
interleaving of any number of processes. `SystemInvariant.dfy` ties records, reservations, outbox
entries and program counters together and keeps that through every action;
`SystemTheorems.dfy`, `Decisions.dfy`, `FirstCalls.dfy`, `EditRuns.dfy`, `Failures.dfy`,
`Conflicts.dfy`, `Retries.dfy`, `ConcurrentCapacity.dfy`, `UnitRace.dfy`, `PublisherRuns.dfy`,
`Attempts.dfy` and `PendingOrder.dfy` draw the consequences. The past that theorems speak about
(who claimed a record, every state of a reservation, every answer given, every send) is part of
the modelled state and never read by a handler.

What each operation decides, writes and accepts is also stated apart from it, condition by condition
and field by field (the members whose names end in `Exact`, `Exactly`, `Carries`, `Fields` and
`Members`), so that the theorems rest on more than the operations' own bodies.

The handlers and repositories also appear as methods over stored documents
(`ReservationHandlers.dfy`, `CreationStore.dfy`, `PublishCycle.dfy`), each proved against a
function on the decoded reservations; `Schedule.dfy` proves capacity of those functions.

| files | what they model |
|---|---|
| `Wrappers`, `Collections`, `Text` | optional values, set sizes, decimal digits and byte order |
| `Calendar`, `Timestamp`, `HttpTimestamp` | calendar arithmetic, the stored and the HTTP timestamp |
| `Domain`, `Lifecycle`, `ReservationAggregate` | values, policies, the six-state aggregate and its events |
| `Encoding`, `Idempotency`, `IdempotencyRecords` | canonical encodings, records, snapshots, completion rules |
| `Handlers`, `World`, `Runs` | handler decisions, the state machine, runs |
| `StepShapes`, `CreationInvariant`, `CreationSteps`, `ReservationHistory`, `OutboxInvariant`, `SystemInvariant` | the invariant and its preservation |
| `SystemTheorems`, `Decisions`, `EditRuns` | what follows for every run: of answers and stores, of what handlers decided, of what editors were permitted |
| `FirstCalls`, `Retries`, `Conflicts`, `Failures` | what a first and a second call are told, when a call is told that it conflicts, and what an access that fails leaves behind |
| `DoubleBooking`, `ConcurrentCapacity`, `UnitRace` | a run that overbooks, and exactly what it takes |
| `Documents`, `ReservationDocuments`, `IdempotencyDocuments`, `OutboxDocuments`, `DocumentKeys` | stored documents |
| `ScheduleQueries`, `OutboxQueries`, `PendingOrder` | the queries over stored documents, and the batches drawn in a run |
| `Schedule`, `ReservationHandlers`, `CreationStore`, `ServiceCapacity`, `Search` | serialized handlers, capacity, search |
| `PublishCycle`, `PublisherRuns`, `Attempts` | the publishing cycle, alone and inside the whole service; the attempt counter |

Check it with `dafny verify dfyconfig.toml`.

## Assumptions

- Generated reservation and event identifiers are fresh, the three event identifiers of one command
  are distinct where they are used together, and every write gets a token not used before.
- The creation transaction is atomic, and a conditional replace compares and writes in one step.
- SHA-256 is taken as injective: a fingerprint and a document key stand for the encoding they hash,
  and the encodings are proved injective.
- What the resource repository and the counting query return to a concurrent handler is arbitrary;
  theorems about concurrent capacity say where they take the answers to be true.
- Overflow of 64-bit nanoseconds, undefined in C++, is an error in the timestamp codec and wraps
  around in a duration. Versions wrap at 2^64 (and are proved not to reach it), attempt counts at
  2^32, and casts of counts to `int` at 2^31, as in the source.

## Where the code and its documentation differ

- A retry with the same key and payload is promised the same result
  (docs/01-requirements.md:1231-1235). The code breaks this when the retry's claim reads the record
  as processing and the reservation has been edited by the time recovery reads it, whether or not
  the record is completed in between (`Conflicts.ConflictsExplained`, both directions, over every
  run; `Retries.RetryConflictsAfterApproval` and `Retries.RetryConflictsAfterCompletion` are runs of
  the two kinds). For a retry that runs alone the condition can be read off before the call: a
  conflict if and only if the record is processing and its reservation edited, in progress if and
  only if it is processing and nothing is stored, and the owner's result otherwise
  (`Retries.SecondCallAnswers`, `Retries.RetryAnswersExactly`).
- README.md names schedule guards that would exclude double booking. The code has none: counting and
  inserting are separate steps (`DoubleBooking.ConcurrentCreationsOverbook`). Of any number of
  creations that compete for the units left, exactly those are confirmed that counted when fewer had
  inserted than units were left (`UnitRace.RaceExactly`); more than the units are confirmed if and
  only if at some point more of them were past their count (`UnitRace.ConfirmedCount`), for two and
  one unit if and only if both count before either inserts (`UnitRace.LastUnitExactly`). Capacity holds in every concurrent run in which nothing overlapping
  becomes confirmed between a handler's check and its write
  (`ConcurrentCapacity.ConcurrentCapacityHolds`), and so for handlers that run one after another
  (`Schedule.CapacityHolds`).
- The timestamp parser takes signed fields in the clock and the fraction (`Timestamp.ParseExactly`
  says which texts it takes, `Timestamp.SignedHourParses` gives one), so printing undoes parsing on
  texts of digits only (`Timestamp.PrintParse`). Documents with such times are accepted, but are not
  what the repositories write (`ReservationDocuments.DocumentReadBack`).
- Document keys join identifiers with `::` and do not escape it. Two organizations share a key for
  some of their entities if and only if the shorter one with `::` is a prefix of the longer one with
  `:` (`DocumentKeys.SharedKeysExactly`). The state machine keys its collections by the pair of
  identifiers, which is what the keys stand for where no organization is nested in another
  (`DocumentKeys.KeysInjective`).

## Model

| member | source | states |
|---|---|---|
| `SystemTheorems.OneReservationPerScope` | src/application/reservations/create_reservation_handler.cpp:145-316 | After every run of any number of handlers, with crashes, failures and ambiguous writes, two stored reservations created for one idempotency scope are one reservation |
| `SystemTheorems.SettledAnswersAgree` | src/application/reservations/create_reservation_handler.cpp:145-316 | All settled answers ever given for one scope are equal, status, reservation and creation time included, and were given to one payload |
| `SystemTheorems.SettledSuccess` | src/application/reservations/create_reservation_handler.cpp:299-315 | A settled success describes the caller's own request and is the first state of a stored reservation whose two creation events are in the outbox |
| `SystemTheorems.SettledRejection` | src/application/reservations/create_reservation_handler.cpp:227-276 | A settled rejection is a permanent one, and no reservation exists for its scope |
| `SystemTheorems.OnlyStoreErrors` | src/infrastructure/persistence/couchbase/couchbase_idempotency_repository.cpp:73-98 | No handler ever throws anything but a store error: terminal conflicts, missing records, stale identities, duplicate inserts and invalid creation events are unreachable |
| `SystemTheorems.RecordsAndReservations` | src/infrastructure/persistence/couchbase/couchbase_idempotency_repository.cpp:186-233 | A permanently failed record has no reservation under its identifiers, a succeeded one has its own, and exactly the processing ones have no result |
| `SystemTheorems.TerminalRecordsStay` | src/infrastructure/persistence/couchbase/couchbase_idempotency_repository.cpp:88-98 | Once a record is terminal, no later action changes it |
| `SystemTheorems.CreationIsAtomic` | src/infrastructure/persistence/couchbase/couchbase_reservation_creation_store.cpp:94-127 | A stored reservation implies that both its creation events are stored, with the content the creation gave them |
| `SystemTheorems.EventsHaveReservations` | src/infrastructure/persistence/couchbase/couchbase_reservation_creation_store.cpp:94-127 | A stored event implies the stored reservation it belongs to |
| `SystemTheorems.StoredEventsTell` | src/infrastructure/persistence/couchbase/couchbase_reservation_creation_store.cpp:84-92 | The two stored events of every reservation of a run tell its creation field by field: identifiers, times, resource, creator, interval, kind and status, under the identifiers of the command that created it |
| `SystemTheorems.StoredAreCreated` | src/infrastructure/persistence/couchbase/couchbase_reservation_creation_store.cpp:97-113 | Reservations, committed creations and histories have the same keys in every reachable state |
| `SystemTheorems.RecoveryAnswers` | src/application/reservations/create_reservation_handler.cpp:181-221 | With working stores, recovery answers in progress if no reservation is stored, a conflict if and only if the stored one has been edited, and otherwise goes on to check its events |
| `SystemTheorems.RecoveryFindsEvents` | src/application/reservations/create_reservation_handler.cpp:193-201 | A matching recovery always finds both creation events, so it never takes the missing-events branch |
| `Decisions.ReadResourceExact` | src/application/reservations/create_reservation_handler.cpp:250-270 | The step that reads the resource goes on to count if and only if the resource is known in the organization, active, and the interval within the policy or overflowing; otherwise it begins to record and answer exactly the rejection that applies |
| `Decisions.CountExact` | src/application/reservations/create_reservation_handler.cpp:271-276 | The step that counts begins to record a schedule conflict if and only if the count reaches the units, cast to `int`; otherwise it goes on to persist, awaiting approval exactly if the resource requires it |
| `Decisions.OutcomesWereDecided` | src/application/reservations/create_reservation_handler.cpp:250-297 | Over runs: every stored reservation was created by a handler that read an eligible resource and then counted fewer units than it has, pending exactly if that resource requires approval; every rejection recorded was the one that applied to what its handler read or counted |
| `Decisions.SettledWereDecided` | src/application/reservations/create_reservation_handler.cpp:250-315 | So every settled answer of a run goes back to such a decision of the handler that owns the scope |
| `FirstCalls.FirstCallAnswers` | src/application/reservations/create_reservation_handler.cpp:145-316 | After any run, the first call of a scope, run alone with working stores and a true count, ends with exactly the answer the serialized schedule decides on, and stores exactly the reservation it decides on with its two events, or nothing |
| `Conflicts.ConflictsExplained` | src/application/reservations/create_reservation_handler.cpp:181-192 | In every run a request is answered a conflict if and only if some action of its handler reads a record of another payload, or reads an edited reservation after an earlier action in which its claim read the record as processing; the edit may come before or after the record is completed |
| `Retries.SecondCallAnswers` | src/application/reservations/create_reservation_handler.cpp:145-316 | After any run, a call whose scope is already claimed, run alone with working stores, ends with the answer computed from the state before it, and leaves reservations and events as they are |
| `Retries.RetryAnswersExactly` | src/application/reservations/create_reservation_handler.cpp:159-221 | For the claimed payload that answer is a conflict if and only if the record is processing and its reservation has been edited, in progress if and only if it is processing and nothing is stored, and otherwise the result of the owner |
| `Retries.RetryConflictsAfterApproval` | docs/01-requirements.md:1231-1235 | The documented promise that a retry with one key and payload has one result fails in this run: persisted, not recorded, approved, retried, and answered a conflict |
| `Retries.RetryConflictsAfterCompletion` | docs/01-requirements.md:1231-1235 | And in this one: persisted, claim read by the retry, recorded as succeeded, approved, and the retry answered a conflict against a succeeded record |
| `Failures.FailedStep` | src/infrastructure/persistence/couchbase/couchbase_idempotency_repository.cpp:113-145 | In every reachable state, a failing step of a creation handler leaves the stores as the working step would have if it took effect and as they were if not, and is answered by the error of the store, except where the handler reads again: after an ambiguous claim and after a replace reported as a conflict |
| `Failures.CompletionAnswers` | src/infrastructure/persistence/couchbase/couchbase_idempotency_repository.cpp:186-233 | From every reachable state, a handler that has begun to complete its record, run alone with working stores, answers within three steps what it set out to answer |
| `Failures.RereadAnswers` | src/infrastructure/persistence/couchbase/couchbase_idempotency_repository.cpp:130-145 | A handler that reads a claim again, run alone with working stores, is answered like a second call, and fails if nothing was claimed after all |
| `DoubleBooking.ConcurrentCreationsOverbook` | src/application/reservations/create_reservation_handler.cpp:271-297 | Two creations that each count truly before either inserts confirm overlapping reservations of a resource with one unit |
| `UnitRace.RaceExactly` | src/application/reservations/create_reservation_handler.cpp:271-297 | From every reachable state in which any number of creations compete for the units left of a resource, along every run whose other actions leave them alone: a rival is confirmed if and only if it inserted after counting when fewer rivals had inserted than units were left |
| `UnitRace.ConfirmedCount` | src/application/reservations/create_reservation_handler.cpp:271-297 | Once every rival has counted and inserted, no unit they could have had is left over, and more are confirmed than units were left if and only if at some point more of them than units were past their count |
| `UnitRace.LastUnitExactly` | src/application/reservations/create_reservation_handler.cpp:271-297 | Of two creations that compete for the last unit at least one is confirmed, and both are if and only if both count before either inserts |
| `ConcurrentCapacity.ConcurrentCapacityHolds` | src/application/reservations/create_reservation_handler.cpp:271-297 | In every concurrent run whose queries answer truly and in which nothing overlapping becomes confirmed between a handler's check and its write, no instant has more confirmed reservations of a resource than units |
| `SystemTheorems.NoLostUpdates` | src/infrastructure/persistence/couchbase/couchbase_reservation_repository.cpp:436-471 | Every state a stored reservation had follows from its creation by single handler decisions; identity is kept, the version is the place in the history without wrapping, terminal states end the history, and no state is both approved and rejected |
| `SystemTheorems.AcknowledgedEditsStay` | src/infrastructure/persistence/couchbase/couchbase_reservation_repository.cpp:452-470 | An edit reported as done stays in the history, directly after the state it was decided on, whatever happens later |
| `EditRuns.ChangesWereSubmitted` | src/application/reservations/cancel_reservation_handler.cpp:29-43 | In every run, each change in a history was submitted as a command permitted to make it: cancellations by the creator or with the owner check bypassed, extensions by the creator of a confirmed reservation to a later end that the policy accepts, reviews of pending reservations only; what each leaves behind is spelled out |
| `EditRuns.LoneEditDecides` | src/application/reservations/approve_reservation_handler.cpp:17-49 | After any run, an edit that runs alone with working stores and a true answer about conflicts does to the reservations what the serialized schedule decides, and is acknowledged exactly if it was done |
| `Failures.FailedEdit` | src/infrastructure/persistence/couchbase/couchbase_reservation_repository.cpp:448-470 | An edit handler whose access fails ends without reporting the edit, and leaves the reservations as the working step would have if it took effect and as they were if not |
| `SystemTheorems.OutboxIsTruthful` | src/application/outbox/outbox_publisher.cpp:115-157 | Published entries were acknowledged by the broker and carry a publication time; sends never exceed claims, and never exceed the attempt count until 2^32 claims |
| `Attempts.SendsOutrunAttempts` | src/infrastructure/persistence/couchbase/couchbase_outbox_repository.cpp:120-122 | From every reachable state, refusing a pending event n times sends it n times more and counts modulo 2^32; where sends and attempts agreed, sends exceed the attempt count if and only if they reach 2^32 |
| `Attempts.CycleOnPending` | src/application/outbox/outbox_publisher.cpp:100-163 | From every reachable state, a cycle on one pending event, run alone, sends it once and counts one attempt; the event ends published now, pending, or still claimed, as the broker acknowledges, refuses or breaks off, and nothing else changes |
| `Failures.FailedPublisher` | src/infrastructure/persistence/couchbase/couchbase_outbox_repository.cpp:97-169 | A publisher whose access fails ends if its candidate is not claimed and goes on to the next one otherwise; entries and tokens are as the working step would have left them if it took effect and as they were if not |
| `SystemTheorems.OneLivePublisher` | src/infrastructure/persistence/couchbase/couchbase_outbox_repository.cpp:97-133 | At most one publisher holds the token under which an entry is being published |
| `SystemTheorems.PublishedStays` | src/infrastructure/persistence/couchbase/couchbase_outbox_repository.cpp:172-189 | A published entry never changes again |
| `SystemTheorems.RunLater` | src/infrastructure/persistence/couchbase/couchbase_idempotency_repository.cpp:113-233 | Along every run, terminal records, owners, answers, creations, histories, acknowledged edits and published events are kept |
| `SystemInvariant.ActKeeps` | src/application/reservations/create_reservation_handler.cpp:145-316 | One action of any process keeps the invariant of the whole service |
| `SystemInvariant.RunKeeps` | src/application/reservations/create_reservation_handler.cpp:145-316 | The invariant holds after every run |
| `CreationSteps.ClaimKeeps` | src/infrastructure/persistence/couchbase/couchbase_idempotency_repository.cpp:113-145 | Claiming, with the insert taking effect or not and reported truly, falsely or ambiguously, keeps the creation invariant |
| `CreationSteps.ReadClaimKeeps` | src/infrastructure/persistence/couchbase/couchbase_idempotency_repository.cpp:57-71 | Classifying the record found keeps the invariant; a terminal record replays the answer of its owner |
| `CreationSteps.RecoverKeeps` | src/application/reservations/create_reservation_handler.cpp:181-192 | Recovering keeps the invariant: what matches is the reservation as created |
| `CreationSteps.CheckEventKeeps` | src/infrastructure/persistence/couchbase/couchbase_reservation_creation_event_store.cpp:41-81 | Checking the creation events keeps the invariant and never finds a wrong event |
| `CreationSteps.DecideKeeps` | src/application/reservations/create_reservation_handler.cpp:248-270 | The decisions on the resource keep the invariant, for every resource that may be read |
| `CreationSteps.PersistKeeps` | src/infrastructure/persistence/couchbase/couchbase_reservation_creation_store.cpp:94-127 | Persisting keeps the invariant, and never meets an identifier that is taken |
| `CreationSteps.CompletionValidates` | src/infrastructure/persistence/couchbase/couchbase_idempotency_repository.cpp:73-98 | Whoever completes a record, the claimer or a recovering retry, validation finds the same outcome or none yet |
| `CreationSteps.CompletionReadKeeps` | src/infrastructure/persistence/couchbase/couchbase_idempotency_repository.cpp:186-207 | Reading and validating the record to complete keeps the invariant |
| `CreationSteps.CompletionWriteKeeps` | src/infrastructure/persistence/couchbase/couchbase_idempotency_repository.cpp:208-223 | Replacing the record under its token keeps the invariant, also when the replace took effect and is reported as a token mismatch |
| `CreationSteps.ReconcileKeeps` | src/infrastructure/persistence/couchbase/couchbase_idempotency_repository.cpp:224-233 | Reconciling after a replace that met another token, another handler's or its own, keeps the invariant and ends in the caller's own answer |
| `StepShapes.StepFramed` | src/application/reservations/create_reservation_handler.cpp:145-316 | A step of a creation handler moves no other handler, takes back no answer, follows the order of the steps, answers only what its place allows, and writes a store only at the three places that do |
| `CreationSteps.CreatorStepKeeps` | src/application/reservations/create_reservation_handler.cpp:145-316 | Every step of a creation handler keeps the creation invariant |
| `CreationInvariant.CreatorSurvives` | src/application/reservations/create_reservation_handler.cpp:145-316 | A step on behalf of one request leaves the handlers of all other requests in order |
| `CreationInvariant.RecordSurvives` | src/infrastructure/persistence/couchbase/couchbase_idempotency_repository.cpp:186-233 | A step changes another record only from processing to its own outcome |
| `Idempotency.PreparedAgree` | src/application/reservations/create_reservation_handler.cpp:155-169 | Document keys agree exactly with scopes, and fingerprints exactly with payloads |
| `Idempotency.PreparedExactly` | src/application/reservations/create_reservation_handler.cpp:152-162 | Two commands share a document key if and only if organization, creator and key agree, and a fingerprint if and only if resource, creator, interval, purpose, kind and authorization agree |
| `Idempotency.ReplaySnapshot` | src/application/reservations/create_reservation_handler.cpp:23-62 | Replaying the snapshot of an answer gives the answer if and only if the answer reports its time and no decision |
| `Idempotency.SnapshotExact` | src/application/reservations/create_reservation_handler.cpp:45-62 | A snapshot is taken if and only if the answer is a permanent rejection or a success whose status fits its reservation, and keeps each field of what it is taken of |
| `Idempotency.ValidationExact` | src/infrastructure/persistence/couchbase/couchbase_idempotency_repository.cpp:73-98 | A completion is refused for another fingerprint, then for a snapshot that does not fit the record, then for a record completed otherwise, each if and only if; else it is accepted |
| `Idempotency.CompletionIsIdempotent` | src/infrastructure/persistence/couchbase/couchbase_idempotency_repository.cpp:73-98 | A completed record accepts again exactly the completion that made it, under its own fingerprint |
| `IdempotencyRecords.IdempotencyRecord.RecordSucceeded` | src/application/idempotency/idempotency_record.cpp:77-84 | A processing record takes a matching success and becomes the completed record; otherwise nothing changes; the check agrees with the repository's |
| `IdempotencyRecords.IdempotencyRecord.RecordFailedPermanently` | src/application/idempotency/idempotency_record.cpp:86-96 | The same for a permanent rejection |
| `ReservationHistory.EditorStepKeeps` | src/infrastructure/persistence/couchbase/couchbase_reservation_repository.cpp:436-471 | Every step of an edit handler keeps the history invariant, whatever ran in between |
| `ReservationHistory.WriteReplaces` | src/infrastructure/persistence/couchbase/couchbase_reservation_repository.cpp:448-470 | A conditional replace takes effect only on the document its decision was made on |
| `ReservationHistory.HistoryDeparts` | src/domain/reservation.cpp:230-387 | Along a history identity and decision records stay consistent, the version counts up by one, and the first change departs from the creation for good |
| `ReservationHistory.HistoryVersions` | src/domain/reservation.cpp:230-387 | Along the history of a reservation versions rise by exactly one from one and never wrap, because every extension moves the end and other edits are at most two |
| `ReservationHistory.RecoveryExact` | src/application/reservations/create_reservation_handler.cpp:64-79 | For a retry with the owner's payload, the stored reservation matches the original operation if and only if nothing has happened to it |
| `Idempotency.FreshMatches` | src/application/reservations/create_reservation_handler.cpp:64-79 | A reservation just created matches the original operation of a command if and only if that command orders the same |
| `OutboxInvariant.PublisherStepKeeps` | src/application/outbox/outbox_publisher.cpp:100-163 | Every step of a publisher keeps the outbox invariant |
| `OutboxInvariant.ClaimReplaces` | src/infrastructure/persistence/couchbase/couchbase_outbox_repository.cpp:97-133 | A claim that finds its token grants a fresh one, counts the attempt and keeps the event |
| `OutboxInvariant.SentKeeps` | src/application/outbox/outbox_publisher.cpp:115-143 | A send uses a granted token once |
| `OutboxInvariant.EntrySteps` | src/infrastructure/persistence/couchbase/couchbase_outbox_repository.cpp:97-207 | One step claims a pending entry, marks an entry published after an acknowledged send, releases one, or leaves it; published entries stay |
| `OutboxInvariant.InsertedKeeps` | src/infrastructure/persistence/couchbase/couchbase_reservation_creation_store.cpp:94-113 | Inserting the events of a creation keeps the outbox invariant |
| `Lifecycle.DepartureAfter` | src/domain/reservation.cpp:230-387 | After any transitions identity is kept, decision records agree with the status, and a changed reservation is recognizably changed |
| `Lifecycle.VersionAfter` | src/domain/reservation.cpp:230-387 | The version is one more than the number of transitions, modulo 2^64 |
| `Lifecycle.TransitionBound` | src/domain/reservation.cpp:311-344 | Transitions are bounded by the nanoseconds the end has moved, plus two |
| `Lifecycle.VersionNeverWraps` | src/domain/reservation.cpp:230-387 | So the version does not wrap within any interval shorter than 2^64 - 4 nanoseconds |
| `Lifecycle.TerminalAbsorbs` | src/domain/value_objects/reservation_status.cpp:13-26 | No transition leaves a terminal state |
| `Lifecycle.EventsRebuild` | src/domain/reservation.cpp:16-115 | Folding the released events of any life, from any starting point, rebuilds the reservation up to its purpose and the reason of a rejection |
| `Lifecycle.RejectionReasonIsLost` | src/domain/reservation.cpp:256-280 | Two rejections that differ in their reason emit one event |
| `Lifecycle.TransitionExact` | src/domain/reservation.cpp:230-387 | The states each transition leaves and reaches, and the one thing it records; everything else is kept |
| `Lifecycle.LogCarries` | src/domain/reservation.cpp:230-387 | Every event of a life carries the transition it records and the state that transition found: identifiers, actor, interval, previous status |
| `Lifecycle.CreationCarries` | src/domain/reservation.cpp:41-110 | The two events of a creation carry organization, identifier and resource; the first the creator, interval, kind and status, the second the requester, interval and kind or the interval |
| `ReservationAggregate.Reservation.CreateConfirmed` | src/domain/reservation.cpp:16-64 | A confirmed reservation of version one with its two events, one nanosecond apart |
| `ReservationAggregate.Reservation.CreatePendingApproval` | src/domain/reservation.cpp:66-115 | The same for a reservation that awaits approval |
| `ReservationAggregate.Reservation.Rehydrate` | src/domain/reservation.cpp:117-151 | A persisted state comes back without events, unless its version is zero |
| `ReservationAggregate.Reservation.ReleaseDomainEvents` | src/domain/reservation.cpp:226-228 | The events are handed out once and the state is kept |
| `ReservationAggregate.Reservation.Approve` | src/domain/reservation.cpp:230-254 | Approves exactly a pending reservation, and appends the event of that transition; a refusal changes nothing |
| `ReservationAggregate.Reservation.Reject` | src/domain/reservation.cpp:256-280 | Rejects exactly a pending reservation |
| `ReservationAggregate.Reservation.Cancel` | src/domain/reservation.cpp:282-309 | Cancels exactly a reservation that is not terminal, and records the status it had |
| `ReservationAggregate.Reservation.Extend` | src/domain/reservation.cpp:311-344 | Extends exactly a confirmed reservation to a later end, and tells the two refusals apart |
| `ReservationAggregate.Reservation.Expire` | src/domain/reservation.cpp:346-366 | Expires exactly a reservation that is not terminal |
| `ReservationAggregate.Reservation.Complete` | src/domain/reservation.cpp:368-387 | Completes exactly a confirmed reservation |
| `Schedule.CapacityHolds` | src/application/reservations/create_reservation_handler.cpp:271-276 | Over every serialized run of creations, approvals, rejections, cancellations and extensions, of any length, that never lowers units and whose counts survive their cast, no instant has more confirmed reservations of a resource than units |
| `Schedule.OneUnitDisjoint` | src/application/reservations/approve_reservation_handler.cpp:35-43 | With one unit, confirmed reservations of a resource are pairwise disjoint |
| `Schedule.CreationFits` | src/application/reservations/create_reservation_handler.cpp:271-276 | A creation that passes the count leaves room for itself at every instant of its interval |
| `Schedule.EditAlone` | src/application/reservations/extend_reservation_handler.cpp:52-60 | After an approval or an extension nothing else occupies the interval |
| `Schedule.CoveringConflicts` | src/domain/policies/reservation_conflict_policy.cpp:16-29 | Whatever covers an instant of an interval conflicts with the interval, so depth is bounded by the count |
| `Schedule.ConflictingExactly` | src/domain/policies/reservation_conflict_policy.cpp:16-29 | A reservation counts as a conflict if and only if it is a confirmed one of the resource that shares an instant with the interval |
| `Schedule.CreationExact` | src/application/reservations/create_reservation_handler.cpp:250-297 | Each answer of a serialized creation, if and only if: three rejections, a conflict exactly if the count cast to `int` reaches the units cast likewise, or the reservation as ordered |
| `Schedule.EditExact` | src/application/reservations/extend_reservation_handler.cpp:18-66 | Each answer of a serialized edit, if and only if: not found, refused by the decision, a conflict exactly if another confirmed reservation overlaps, or the state after the transition |
| `Handlers.DecisionsAreEnabled` | src/application/reservations/extend_reservation_handler.cpp:41-66 | Handlers attempt only allowed transitions, check conflicts over the interval the reservation will occupy, and confirm nothing without a check |
| `Handlers.RejectResource` | src/application/reservations/create_reservation_handler.cpp:248-270 | Only permanent rejections are given before counting, and counting needs a resource |
| `Handlers.RejectionExact` | src/application/reservations/create_reservation_handler.cpp:250-270 | Each rejection of a creation has its own cause, if and only if: no resource known in the organization, an inactive one, or an interval that neither the policy allows nor overflows 64 bits; otherwise units are counted |
| `Handlers.ReviewExact` | src/application/reservations/approve_reservation_handler.cpp:29-45 | Approval and rejection are decided on pending reservations only, an approval unless another reservation conflicts; any other status is refused |
| `Handlers.CancellationExact` | src/application/reservations/cancel_reservation_handler.cpp:29-43 | A cancellation is refused as unauthorized if and only if the caller is not the creator and the owner check is not bypassed, then as invalid if and only if the reservation is neither pending nor confirmed, and applied otherwise |
| `Handlers.ExtensionExact` | src/application/reservations/extend_reservation_handler.cpp:30-66 | An extension is refused for another caller, then for a reservation not confirmed, then for a moved start, an end no later or a length the policy does not accept, each if and only if; otherwise it is applied unless it conflicts |
| `Domain.PolicyExact` | src/domain/policies/reservation_policy.cpp:10-33 | The policy decides the true length of an interval if and only if that length fits 64 bits or maintenance is not authorized |
| `Domain.PolicyAccepts` | src/domain/policies/reservation_policy.cpp:10-33 | The policy accepts 24 hours of authorized maintenance and 12 hours otherwise, in nanoseconds, and any length that overflows 64 bits |
| `Domain.OverlapsExactly` | src/domain/policies/reservation_conflict_policy.cpp:16-29 | Intervals overlap if and only if an instant lies in both; bounds that touch do not |
| `Domain.ToInt32Exact` | src/application/reservations/create_reservation_handler.cpp:271-273 | The cast keeps the low 32 bits, so counts below 2^31 |
| `ReservationHandlers.ReservationRepository.FindById` | src/infrastructure/persistence/couchbase/couchbase_reservation_repository.cpp:110-156 | A fresh aggregate in the stored state, with the token of its document |
| `ReservationHandlers.ReservationRepository.Update` | src/infrastructure/persistence/couchbase/couchbase_reservation_repository.cpp:436-471 | Replaces exactly a document that still has the expected token by the document of the aggregate; refuses what cannot be written |
| `ReservationHandlers.ReservationRepository.Insert` | src/infrastructure/persistence/couchbase/couchbase_reservation_repository.cpp:410-434 | Inserts exactly under a free key |
| `ReservationHandlers.ReservationRepository.HasConflictExcluding` | src/infrastructure/persistence/couchbase/couchbase_reservation_repository.cpp:332-367 | The query over stored texts answers whether another decoded reservation blocks the interval |
| `ReservationHandlers.ReservationRepository.ReservedUnitCount` | src/infrastructure/persistence/couchbase/couchbase_reservation_repository.cpp:369-408 | The query over stored texts counts the decoded reservations that block the interval, cast to 32 bits |
| `ReservationHandlers.ApproveReservation` | src/application/reservations/approve_reservation_handler.cpp:17-49 | The handler over stored documents does to the decoded book what the specification says, and answers so |
| `ReservationHandlers.RejectReservation` | src/application/reservations/reject_reservation_handler.cpp:17-42 | The same for rejection |
| `ReservationHandlers.CancelReservation` | src/application/reservations/cancel_reservation_handler.cpp:17-49 | The same for cancellation |
| `ReservationHandlers.ExtendReservation` | src/application/reservations/extend_reservation_handler.cpp:18-72 | The same for extension |
| `ReservationHandlers.HandledIsScheduled` | src/application/reservations/approve_reservation_handler.cpp:17-49 | What an edit handler does is one step of the serialized schedule, or nothing when the repository fails |
| `ReservationHandlers.FailureExact` | src/application/reservations/extend_reservation_handler.cpp:41-66 | The repository fails an edit if and only if the interval it asks about cannot be printed or the state it writes cannot be stored; otherwise the answer is what the schedule decides |
| `CreationStore.CreationStore.Persist` | src/infrastructure/persistence/couchbase/couchbase_reservation_creation_store.cpp:74-127 | Inserts the reservation and the documents of all events, or changes nothing; says exactly when, and that a token that cannot be read after the commit is reported as an error although everything is stored |
| `CreationStore.PersistExact` | src/infrastructure/persistence/couchbase/couchbase_reservation_creation_store.cpp:74-127 | A creation commits if and only if the reservation and both times can be written and none of the three identifiers is taken; then the outbox has exactly the two documents more, pending, each carrying its event |
| `CreationStore.BuildInserts` | src/infrastructure/persistence/couchbase/couchbase_reservation_creation_store.cpp:84-92 | The loop builds the documents of all events, or none if one cannot be written |
| `CreationStore.StageInserts` | src/infrastructure/persistence/couchbase/couchbase_reservation_creation_store.cpp:97-113 | The inserts are staged one after another and fail at the first key that is taken |
| `CreationStore.CreationStore.ContainsAll` | src/infrastructure/persistence/couchbase/couchbase_reservation_creation_event_store.cpp:41-81 | Answers for exactly two events, stopping at the first one missing or wrong |
| `CreationStore.ContainsExact` | src/infrastructure/persistence/couchbase/couchbase_reservation_creation_event_store.cpp:41-81 | Of two events: present if and only if both are stored under their identifiers for the reservation with the type their place requires; missing if the first is, or the first is right and the second is not stored; invalid otherwise |
| `CreationStore.PersistedIsContained` | src/infrastructure/persistence/couchbase/couchbase_reservation_creation_event_store.cpp:41-81 | What a creation persists, the recovery check finds, also when the handler was told of an error after the commit |
| `CreationStore.CreateReservation` | src/application/reservations/create_reservation_handler.cpp:248-297 | The handler between claim and completion declines, persists what the schedule decides with its two events, or fails; the failure after the commit leaves everything stored |
| `CreationStore.CreationIsScheduled` | src/application/reservations/create_reservation_handler.cpp:248-297 | A serialized creation is one step of the schedule if it stores, whatever it answers, and nothing otherwise |
| `ServiceCapacity.EditKeepsCapacity` | src/application/reservations/extend_reservation_handler.cpp:41-66 | The imperative edit handlers keep the capacity of every resource, whatever they answer |
| `ServiceCapacity.CreationKeepsCapacity` | src/application/reservations/create_reservation_handler.cpp:271-297 | So does the imperative creation handler |
| `Search.SearchAvailable` | src/application/resources/search_available_resources_handler.cpp:21-56 | The loop lists the entries the specification describes, or fails at the first resource in scope if the interval cannot be printed |
| `Search.ListedExactly` | src/application/resources/search_available_resources_handler.cpp:31-53 | A search fails if and only if a resource has the organization and type and is active and the interval cannot be printed; otherwise a resource is listed if and only if it has them, is active, and fewer confirmed reservations overlap the interval than it has units, with exactly the difference |
| `Search.UnitsLeftExact` | src/application/resources/search_available_resources_handler.cpp:43-51 | What is left of a resource is its units less the confirmed reservations that overlap the interval, and nothing if these reach the units |
| `Search.ListedInOrder` | src/application/resources/search_available_resources_handler.cpp:31-53 | Resources are listed in the order in which the search finds them |
| `Search.OfferWithinPeak` | src/application/resources/search_available_resources_handler.cpp:43-51 | What is offered never exceeds the units free at any instant of the interval |
| `Search.SearchAgreesWithCreation` | src/application/resources/search_available_resources_handler.cpp:43-51 | If search offers n units of a resource without approval, exactly n fresh creations are confirmed and the next is a schedule conflict |
| `ScheduleQueries.SelectedIsConflict` | src/infrastructure/persistence/couchbase/couchbase_reservation_repository.cpp:93-97 | Comparing stored timestamps as strings selects a document if and only if the decoded reservation conflicts with the interval |
| `ScheduleQueries.CountRefines` | src/infrastructure/persistence/couchbase/couchbase_reservation_repository.cpp:369-408 | The count equals the number of decoded conflicting reservations, cast to 32 bits |
| `ScheduleQueries.ConflictRefines` | src/infrastructure/persistence/couchbase/couchbase_reservation_repository.cpp:332-367 | The exclusion query is the existential form without the excluded identifier |
| `ScheduleQueries.RepositoryWrites` | src/infrastructure/persistence/couchbase/reservation_document_mapper.cpp:95-116 | What the repository writes is in the form the queries need, and blocks what the reservation blocks |
| `OutboxQueries.CreationEventsInOrder` | src/infrastructure/persistence/couchbase/couchbase_outbox_repository.cpp:64-95 | Whatever attempts either creation event has behind it, if the second is in a pending batch and the first is pending, the first is in the batch, and earlier |
| `OutboxQueries.BeforeExactly` | src/infrastructure/persistence/couchbase/couchbase_outbox_repository.cpp:72-76 | Pending events are drawn in the order of time, and among events of one time in the order of their identifiers |
| `OutboxQueries.EarliestFirst` | src/infrastructure/persistence/couchbase/couchbase_outbox_repository.cpp:72-76 | The pending event before all others heads every batch |
| `PendingOrder.PendingInOrder` | src/infrastructure/persistence/couchbase/couchbase_outbox_repository.cpp:64-95 | After every run, in every batch drawn from the outbox, the second creation event of a reservation comes only after the first while the first is pending |
| `DocumentKeys.KeysInjective` | src/infrastructure/persistence/couchbase/couchbase_document_key.cpp:20-36 | Tenant-scoped keys tell entities apart unless one organization is nested in the other |
| `DocumentKeys.KeysCollide` | src/infrastructure/persistence/couchbase/couchbase_document_key.cpp:20-36 | Every entity of an organization with another nested in it shares a key with an entity of the other |
| `DocumentKeys.SharedKeysExactly` | src/infrastructure/persistence/couchbase/couchbase_document_key.cpp:20-36 | Two organizations share a key for some of their entities if and only if one is nested in the other: the shorter with two colons is a prefix of the longer with one |
| `PublishCycle.RunCycle` | src/application/outbox/outbox_publisher.cpp:74-172 | The loop and its counters account for every candidate begun, send in batch order, and stop exactly at the first fate that throws |
| `PublishCycle.ReturnedCycle` | src/application/outbox/outbox_publisher.cpp:74-172 | A cycle that returns: candidates are acquired or lost, and acquired ones published, released or failed |
| `PublishCycle.ThrownCycle` | src/application/outbox/outbox_publisher.cpp:104-163 | A cycle that throws accounts for every candidate but the one in flight |
| `PublishCycle.SendsInOrder` | src/application/outbox/outbox_publisher.cpp:100-163 | Of two attempted candidates the earlier one is sent earlier |
| `PublisherRuns.CycleIsRunCycle` | src/application/outbox/outbox_publisher.cpp:74-172 | A cycle of any run that came to its end, whatever ran between its steps, is a call of the loop on the fates its steps gave: same sends, same counts, thrown alike; what counts as published is stored as published and was acknowledged |
| `PublisherRuns.JournalKept` | src/application/outbox/outbox_publisher.cpp:100-163 | After every run a publisher stands at the candidate after those with a fate, none of which ended the cycle, and has sent what their fates say |
| `Timestamp.PrintDefined` | src/infrastructure/persistence/couchbase/reservation_document_validator.cpp:46-69 | Printing succeeds exactly on instants whose midnight is representable, always with 30 bytes of digits and separators |
| `Timestamp.PrintableExactly` | src/infrastructure/persistence/couchbase/reservation_document_validator.cpp:49-55 | The printable instants are those from -9223286400000000000 nanoseconds on |
| `Timestamp.PrintExact` | src/infrastructure/persistence/couchbase/reservation_document_validator.cpp:46-69 | The printed text names the instant: an existing date, a time on the clock, and nine digits of nanoseconds that sum up to it |
| `Timestamp.ParseExactly` | src/infrastructure/persistence/couchbase/reservation_document_validator.cpp:71-100 | Of all texts the parser takes exactly those with an existing date in digits and a clock and fraction in digits or a sign and digits, not beyond the clock, whose seconds and sum fit 64 bits, and yields that sum |
| `Timestamp.DigitTextParses` | src/infrastructure/persistence/couchbase/reservation_document_validator.cpp:71-100 | A text of digits is malformed if and only if it names no time, and otherwise an overflow if and only if 64 bits do not hold it |
| `Timestamp.ParsePrint` | src/infrastructure/persistence/couchbase/reservation_document_validator.cpp:46-100 | Parsing undoes printing |
| `Timestamp.PrintOrder` | src/infrastructure/persistence/couchbase/reservation_document_validator.cpp:46-69 | Byte order of printed texts is time order, as section 5.1 of RFC 3339 describes |
| `Timestamp.ParseOrder` | src/infrastructure/persistence/couchbase/reservation_document_validator.cpp:71-100 | On texts of digits, byte order is the order of the parsed instants |
| `Timestamp.PrintParse` | src/infrastructure/persistence/couchbase/reservation_document_validator.cpp:46-100 | Printing undoes parsing if and only if every field is digits and the midnight is representable |
| `Timestamp.SignedHourParses` | src/infrastructure/persistence/couchbase/reservation_document_validator.cpp:24-35 | A text with a signed hour parses, and its instant prints differently |
| `Timestamp.YearsOfInstants` | src/infrastructure/persistence/couchbase/reservation_document_validator.cpp:46-55 | Every 64-bit instant falls in the years 1677 to 2262, so no year is printed with another width |
| `Timestamp.FieldsOf` | src/infrastructure/persistence/couchbase/reservation_document_validator.cpp:46-55 | The calendar fields of an instant denote that instant |
| `Calendar.DayNumbersFollowCalendar` | src/infrastructure/persistence/couchbase/reservation_document_validator.cpp:84-97 | Day numbers start at the epoch and advance by one with each calendar day, leap years included |
| `Calendar.DateOf` | src/infrastructure/persistence/couchbase/reservation_document_validator.cpp:49-51 | The date computed for a day number has that day number |
| `Calendar.DayOrder` | src/infrastructure/persistence/couchbase/reservation_document_validator.cpp:84-97 | Day numbers and calendar dates are ordered alike |
| `Calendar.MonthLengths` | src/infrastructure/persistence/couchbase/reservation_document_validator.cpp:84-97 | The lengths of the twelve months, and the leap years |
| `Calendar.DayNumberExact` | src/infrastructure/persistence/couchbase/reservation_document_validator.cpp:84-97 | The day number of every date in closed form |
| `HttpTimestamp.ParseHttp` | src/presentation/http_timestamp.cpp:26-53 | Padding in place makes the 30-byte text the shorter one stands for, and reads it |
| `HttpTimestamp.LengthsRead` | src/presentation/http_timestamp.cpp:26-53 | A text shorter than 20 bytes, of 21, or longer than 30 is refused |
| `HttpTimestamp.ReadAbbreviated` | src/presentation/reservations/create_reservation_request.cpp:58-77 | What the interface prints, with trailing zeros of the fraction dropped, reads as the same instant |
| `HttpTimestamp.FractionValue` | src/presentation/http_timestamp.cpp:30-34 | A fraction of d digits counts units of 10^(9-d) nanoseconds |
| `Encoding.Buffer.AppendUnsigned64` | src/application/idempotency/create_reservation_fingerprint.cpp:27-31 | The shift loop appends the eight big-endian bytes |
| `Encoding.BigEndianBytes` | src/application/idempotency/create_reservation_fingerprint.cpp:27-31 | The eight bytes weighed by powers of 256 give the number |
| `Encoding.Buffer.AppendString` | src/application/idempotency/create_reservation_fingerprint.cpp:33-36 | A string under its length |
| `Encoding.Buffer.AppendTimestamp` | src/application/idempotency/create_reservation_fingerprint.cpp:38-44 | A timestamp in two's complement |
| `Encoding.CanonicalRequest` | src/application/idempotency/create_reservation_fingerprint.cpp:46-57 | The encoder builds the canonical encoding of a request |
| `Encoding.RequestLayout` | src/application/idempotency/create_reservation_fingerprint.cpp:46-57 | The canonical bytes of a request field after field, lengths before texts, times in two's complement |
| `Encoding.CanonicalScope` | src/infrastructure/persistence/couchbase/idempotency_document_key.cpp:53-64 | The encoder builds the canonical encoding of a scope |
| `Encoding.ScopeLayout` | src/infrastructure/persistence/couchbase/idempotency_document_key.cpp:53-64 | The canonical bytes of a scope field after field |
| `Encoding.DecodeRequestEncoding` | src/application/idempotency/create_reservation_fingerprint.cpp:46-57 | A decoder recovers every request from its encoding |
| `Encoding.DecodeScopeEncoding` | src/infrastructure/persistence/couchbase/idempotency_document_key.cpp:53-64 | A decoder recovers every scope from its encoding |
| `Encoding.RequestInjective` | src/application/idempotency/create_reservation_fingerprint.cpp:46-57 | Requests with one encoding are one request |
| `Encoding.ScopeInjective` | src/infrastructure/persistence/couchbase/idempotency_document_key.cpp:53-64 | Scopes with one encoding are one scope |
| `ReservationDocuments.DocumentRoundTrip` | src/infrastructure/persistence/couchbase/reservation_document_mapper.cpp:95-136 | A reservation becomes a document exactly if its times print and its version is not zero, and comes back unchanged |
| `ReservationDocuments.DocumentFields` | src/infrastructure/persistence/couchbase/reservation_document_mapper.cpp:95-116 | Each field of a document is the field of the reservation it is named after |
| `ReservationDocuments.DocumentReadBack` | src/infrastructure/persistence/couchbase/reservation_document_mapper.cpp:118-136 | An accepted document is what would be written for the reservation it stands for, if and only if its times are in the printed form |
| `ReservationDocuments.JsonRoundTrip` | src/infrastructure/persistence/couchbase/reservation_document.cpp:81-149 | A valid document survives JSON unchanged |
| `ReservationDocuments.JsonMembers` | src/infrastructure/persistence/couchbase/reservation_document.cpp:81-149 | Writing puts each field under the member of its name, and reading takes exactly the valid document whose fields are there |
| `ReservationDocuments.StoredRoundTrip` | src/infrastructure/persistence/couchbase/reservation_document.cpp:81-149 | What is written for a storable reservation is read back as that reservation |
| `ReservationDocuments.ReachableRoundTrip` | src/infrastructure/persistence/couchbase/reservation_document_mapper.cpp:95-136 | So is every reservation reached from a creation, whose version cannot have wrapped |
| `IdempotencyDocuments.DocumentRoundTrip` | src/infrastructure/persistence/couchbase/idempotency_document_mapper.cpp:114-170 | A well-formed record becomes a valid document exactly if it is storable, and comes back unchanged |
| `IdempotencyDocuments.DocumentFields` | src/infrastructure/persistence/couchbase/idempotency_document_mapper.cpp:114-135 | Each field of a document is the field of the record it is named after; a rejection has no more than its status |
| `IdempotencyDocuments.DocumentReadBack` | src/infrastructure/persistence/couchbase/idempotency_document_mapper.cpp:137-170 | An accepted document is what would be written for the record it stands for, if and only if its times are in the printed form |
| `IdempotencyDocuments.AcceptedSuccess` | src/infrastructure/persistence/couchbase/idempotency_document_validator.cpp:125-141 | An accepted success repeats organization, creator, reservation and time of its record letter by letter |
| `IdempotencyDocuments.HandlerRecordsRoundTrip` | src/infrastructure/persistence/couchbase/idempotency_document_mapper.cpp:114-170 | Every record in the store after any run passes validation if and only if its times can be printed, and is then read back unchanged from its JSON form |
| `IdempotencyDocuments.SuccessRoundTrip` | src/infrastructure/persistence/couchbase/idempotency_document_mapper.cpp:66-112 | A successful snapshot survives its result document |
| `IdempotencyDocuments.JsonRoundTrip` | src/infrastructure/persistence/couchbase/idempotency_document.cpp:59-115 | A valid document with its optional result fields survives JSON unchanged |
| `IdempotencyDocuments.JsonMembers` | src/infrastructure/persistence/couchbase/idempotency_document.cpp:21-115 | Writing puts each field, those of the result included, under the member of its name, and reading takes exactly the valid document whose fields are there |
| `OutboxDocuments.EventRoundTrip` | src/infrastructure/persistence/couchbase/outbox_document_mapper.cpp:114-146 | Each of the eight events becomes a valid pending document exactly if it is addressed to it, printable and sound, and the document carries the whole event |
| `OutboxDocuments.EventCarried` | src/infrastructure/persistence/couchbase/outbox_document_mapper.cpp:30-112 | A document carries exactly the event whose fields are its header and the members of its payload, each under its name |
| `OutboxDocuments.ValidExactly` | src/infrastructure/persistence/couchbase/outbox_document_validator.cpp:36-142 | Validation accepts a document if and only if it has the version and the aggregate type, a time of publication exactly once published, and carries an event whose statuses and intervals are those of a live reservation |
| `OutboxDocuments.EmittedAccepted` | src/infrastructure/persistence/couchbase/outbox_document_validator.cpp:105-126 | Every event a transition emits is accepted whenever its intervals print |
| `OutboxDocuments.CreationAccepted` | src/infrastructure/persistence/couchbase/outbox_document_validator.cpp:36-63 | So are both creation events |
| `OutboxDocuments.JsonRoundTrip` | src/infrastructure/persistence/couchbase/outbox_document.cpp:27-77 | A valid outbox document survives JSON exactly if its times print |
| `OutboxDocuments.JsonMembers` | src/infrastructure/persistence/couchbase/outbox_document.cpp:27-77 | Writing puts each field under the member of its name, and reading takes exactly the valid document whose fields are there |

## Left out

- Retention expiry of idempotency records: theorems about idempotency are about runs in which no record has expired.
- Liveness: a crashed publisher leaves an entry publishing, and a crashed claimer a record processing; what is proved to end are calls, completions and cycles that run alone.
- SHA-256 itself, random identifiers, clocks, authentication and sessions: injectivity, freshness and times are parameters.
- OutboxIsTruthful: sends are bounded by `attempt_count` only until 2^32 claims of one event, where the counter wraps in the code; `Attempts.SendsOutrunAttempts` gives the runs past it.
- CapacityHolds: asks that each count of conflicting reservations stays below 2^31, because the code casts it to `int`; runs may have any length.
- SearchAgreesWithCreation: asks that the units and the conflicting reservations stay below 2^31, for the same cast.
- ConcurrentCapacityHolds: its condition on what happens between a check and its write is sufficient; for creations that compete for the same units, `UnitRace.RaceExactly` is exact.
- RaceExactly: is about rivals whose store operations work and whose counts are true; the other processes may do anything that changes neither what a rival counts nor its reservation.
- PendingInOrder: speaks of entries that can be written as documents; an event that cannot is never stored by the code.
- OneReservationPerScope: sizes of identifiers and purposes are below 2^64 bytes, as C++ strings are.
- RunCycle: takes what the stores and the broker do with each candidate as its fate; `PublisherRuns.CycleIsRunCycle` takes the fates from the steps of the state machine, where a mark or a release fails only with the repository's own error.
- CreateReservation: covers the handler between its claim and its completion; claiming, recovery and completion are in the state machine.
- RepositoryWrites: documents written by other programs with signs in their timestamps are outside the query theorems.
- JSON text and the N1QL engine: documents are trees of members, one constructor for each member name, and queries are predicates over them.
- Errors are classified as errors of a store or of a handler; their messages and finer codes are not kept.
- Events of approval, rejection, cancellation and extension do not reach the outbox in the code, so the outbox holds creation events only.
- Resource updates other than those that keep the units, which the capacity theorem excludes.
- Resource cache, list and get handlers, HTTP controllers, metrics, logging, configuration and worker wake-ups: they add nothing hard.
