/** Idempotency records, the result snapshots they keep, and the rules for claiming and completing them. */
module Idempotency {
  import opened Wrappers
  import opened Timestamp
  import opened Domain
  import opened Encoding

  datatype CreateStatus =
    | CreatedConfirmed | CreatedPendingApproval | ResourceNotFound | ResourceUnavailable | ScheduleConflict
    | PolicyRejected | IdempotencyConflict | IdempotencyInProgress

  datatype Identifiers = Identifiers(reservation: Id, createdEvent: Id, confirmedEvent: Id, approvalEvent: Id)
  {
    function EventIds(): set<Id> { {createdEvent, confirmedEvent, approvalEvent} }
  }

  datatype CreateCommand = CreateCommand(
    org: Id, creator: Id, key: Id, resource: Id, interval: Interval, purpose: string, kind: Kind, maintenance: bool,
    ids: Identifiers, at: Instant)
  {
    /** Strings of a size C++ can hold. */
    predicate Fits() {
      Sized(org) && Sized(creator) && Sized(key) && Sized(resource) && Sized(purpose)
    }

    function ScopeOf(): Scope { Scope(org, creator, CreateReservation, key) }

    function Payload(): FingerprintInput {
      FingerprintInput(resource, creator, interval.start, interval.end, purpose, kind, maintenance)
    }
  }

  /** Generated event identifiers differ, and the second creation event still has a timestamp. */
  type Command = c: CreateCommand |
    c.at < INT64_MAX && c.ids.createdEvent != c.ids.confirmedEvent && c.ids.createdEvent != c.ids.approvalEvent
    witness CreateCommand("o", "u", "k", "r", TimeInterval(0, 1), "", Standard, false, Identifiers("i", "a", "b", "c"), 0)

  /** A command with the document key of its scope and the fingerprint of its payload. */
  datatype Request = Request(cmd: Command, documentKey: string, fingerprint: string)

  function Prepare(c: Command): Request {
    Request(c, ScopeEncoding(c.ScopeOf()), RequestEncoding(c.Payload()))
  }

  datatype CreateResult = CreateResult(status: CreateStatus, reservation: Option<ReservationState>, createdAt: Option<Instant>)

  function RejectedResult(status: CreateStatus): CreateResult { CreateResult(status, None, None) }

  /** `confirmed` or `pending_approval`, by the status of the reservation. */
  function SuccessResult(r: ReservationState, createdAt: Instant): CreateResult {
    CreateResult(if r.status.Confirmed? then CreatedConfirmed else CreatedPendingApproval, Some(r), Some(createdAt))
  }

  // ----- Snapshots -----

  datatype Snapshot =
    | SuccessSnapshot(status: CreateStatus, org: Id, id: Id, resource: Id, creator: Id, interval: Interval, purpose: string,
                      reservationStatus: Status, kind: Kind, version: UInt64, createdAt: Instant)
    | RejectionSnapshot(status: CreateStatus)

  predicate IsPermanentRejection(status: CreateStatus) {
    status.ResourceNotFound? || status.ResourceUnavailable? || status.ScheduleConflict? || status.PolicyRejected?
  }

  /** The checks of the snapshot factories. */
  predicate ValidSnapshot(s: Snapshot) {
    match s
    case SuccessSnapshot(status, _, _, _, _, _, _, reservationStatus, _, version, _) =>
      && ((status.CreatedConfirmed? && reservationStatus.Confirmed?)
          || (status.CreatedPendingApproval? && reservationStatus.PendingApproval?))
      && version != 0
    case RejectionSnapshot(status) => IsPermanentRejection(status)
  }

  /** `snapshot_for`; `None` where a factory throws. */
  function SnapshotFor(result: CreateResult, createdAt: Instant): Option<Snapshot> {
    var s := match result.reservation
      case None => RejectionSnapshot(result.status)
      case Some(r) => SuccessSnapshot(result.status, r.org, r.id, r.resource, r.creator, r.interval, r.purpose,
                                      r.status, r.kind, r.version, createdAt);
    if ValidSnapshot(s) then Some(s) else None
  }

  /** `replay`: the answer a stored snapshot stands for. */
  function Replay(s: Snapshot): CreateResult {
    match s
    case RejectionSnapshot(status) => RejectedResult(status)
    case SuccessSnapshot(status, org, id, resource, creator, interval, purpose, reservationStatus, kind, version, createdAt) =>
      var r := ReservationState(org, id, resource, creator, interval, purpose, kind, reservationStatus, None, None, None, version);
      CreateResult(if status.CreatedConfirmed? then CreatedConfirmed else CreatedPendingApproval, Some(r), Some(createdAt))
  }

  /** A snapshot is taken of created reservations and permanent rejections only, and keeps what it is taken of. */
  lemma SnapshotExact(result: CreateResult, createdAt: Instant)
    ensures var s := SnapshotFor(result, createdAt);
      && (s.Some? <==>
            match result.reservation
            case None => result.status in {ResourceNotFound, ResourceUnavailable, ScheduleConflict, PolicyRejected}
            case Some(r) =>
              && r.version != 0
              && (result.status, r.status) in {(CreatedConfirmed, Confirmed), (CreatedPendingApproval, PendingApproval)})
      && (s.Some? ==> s.value.status == result.status && (s.value.SuccessSnapshot? <==> result.reservation.Some?))
      && (s.Some? && result.reservation.Some? ==>
            var r, kept := result.reservation.value, s.value;
            && (kept.org, kept.id, kept.resource, kept.creator) == (r.org, r.id, r.resource, r.creator)
            && kept.interval == r.interval && kept.purpose == r.purpose && kept.reservationStatus == r.status
            && kept.kind == r.kind && kept.version == r.version && kept.createdAt == createdAt)
  {
  }

  /** Replaying the snapshot of an answer gives the answer, for every answer that reports an undecided reservation or a permanent rejection. */
  lemma ReplaySnapshot(result: CreateResult, createdAt: Instant)
    requires SnapshotFor(result, createdAt).Some?
    ensures Replay(SnapshotFor(result, createdAt).value) == result <==>
      match result.reservation
      case None => result.createdAt == None
      case Some(r) =>
        result.createdAt == Some(createdAt) && r.approval == None && r.rejection == None && r.cancellation == None
  {
  }

  // ----- Records -----

  datatype RecordStatus = Processing | Succeeded | FailedPermanent

  datatype Record = Record(scope: Scope, fingerprint: string, ids: Identifiers, createdAt: Instant,
                           status: RecordStatus, result: Option<Snapshot>)

  function ProcessingRecord(r: Request): Record {
    Record(r.cmd.ScopeOf(), r.fingerprint, r.cmd.ids, r.cmd.at, Processing, None)
  }

  datatype Classification = FingerprintMismatch | ExistingProcessing | ExistingTerminal

  function Classify(existing: Record, fingerprint: string): Classification {
    if existing.fingerprint != fingerprint then FingerprintMismatch
    else if existing.status.Processing? then ExistingProcessing
    else ExistingTerminal
  }

  datatype CompletionError = FingerprintDiffers | InvalidSnapshot | TerminalConflict

  /** `validate_completion`. */
  function ValidateCompletion(record: Record, fingerprint: string, snapshot: Snapshot, succeeded: bool)
    : Option<CompletionError>
  {
    if record.fingerprint != fingerprint then Some(FingerprintDiffers)
    else if snapshot.SuccessSnapshot? != succeeded then Some(InvalidSnapshot)
    else if succeeded && (snapshot.id != record.ids.reservation || snapshot.createdAt != record.createdAt)
    then Some(InvalidSnapshot)
    else if record.status.Processing? then None
    else if record.result == Some(snapshot) && record.status == (if succeeded then Succeeded else FailedPermanent)
    then None
    else Some(TerminalConflict)
  }

  /**
   A completion is refused for another fingerprint, then for a snapshot of the other kind or of
   another reservation, then for a record that has been completed otherwise; else it is accepted.
   */
  lemma ValidationExact(record: Record, fingerprint: string, snapshot: Snapshot, succeeded: bool)
    ensures var error := ValidateCompletion(record, fingerprint, snapshot, succeeded);
      var own := fingerprint == record.fingerprint;
      var fits := if succeeded
                  then snapshot.SuccessSnapshot? && snapshot.id == record.ids.reservation && snapshot.createdAt == record.createdAt
                  else snapshot.RejectionSnapshot?;
      var open := record.status == Processing
                  || (record.status == (if succeeded then Succeeded else FailedPermanent) && record.result == Some(snapshot));
      && (error == Some(FingerprintDiffers) <==> !own) && (error == Some(InvalidSnapshot) <==> own && !fits)
      && (error == Some(TerminalConflict) <==> own && fits && !open) && (error == None <==> own && fits && open)
  {
  }

  /** `record_succeeded` and `record_failed_permanently` on a processing record whose completion validates. */
  function CompletedRecord(record: Record, snapshot: Snapshot, succeeded: bool): Record {
    record.(status := if succeeded then Succeeded else FailedPermanent, result := Some(snapshot))
  }

  /** A completed record accepts again exactly the completion that made it, and nothing else. */
  lemma CompletionIsIdempotent(record: Record, snapshot: Snapshot, succeeded: bool, fingerprint: string, again: Snapshot,
                               againSucceeded: bool)
    requires record.status.Processing? && ValidateCompletion(record, record.fingerprint, snapshot, succeeded) == None
    ensures ValidateCompletion(CompletedRecord(record, snapshot, succeeded), fingerprint, again, againSucceeded) == None
            <==> fingerprint == record.fingerprint && again == snapshot && againSucceeded == succeeded
  {
  }

  // ----- Recovery -----

  /** `matches_original_operation`. */
  predicate MatchesOriginal(r: ReservationState, record: Record, c: Command) {
    && (r.status.PendingApproval? || (r.status.Confirmed? && r.approval == None))
    && r.org == record.scope.org && r.id == record.ids.reservation && r.resource == c.resource
    && r.creator == c.creator && r.interval == c.interval && r.purpose == c.purpose && r.kind == c.kind
  }

  /** `expected_event_ids`. */
  function ExpectedEventIds(r: ReservationState, record: Record): seq<Id> {
    [record.ids.createdEvent, if r.status.Confirmed? then record.ids.confirmedEvent else record.ids.approvalEvent]
  }

  /** The reservation a command creates. */
  function Created(c: Command, pending: bool): ReservationState {
    CreationState(c.org, c.ids.reservation, c.resource, c.creator, c.interval, c.purpose, c.kind, pending)
  }

  function SecondEventId(c: Command, pending: bool): Id {
    if pending then c.ids.approvalEvent else c.ids.confirmedEvent
  }

  function CreatedEvents(c: Command, pending: bool): seq<Event> {
    CreationEvents(Created(c, pending), c.ids.createdEvent, SecondEventId(c, pending), c.at)
  }

  /** A reservation just created matches the record of a command if and only if that command orders the same. */
  lemma FreshMatches(c: Command, d: Command, pending: bool)
    ensures MatchesOriginal(Created(d, pending), ProcessingRecord(Prepare(c)), c) <==>
      && (d.org, d.ids.reservation, d.resource, d.creator) == (c.org, c.ids.reservation, c.resource, c.creator)
      && d.interval == c.interval && d.purpose == c.purpose && d.kind == c.kind
  {
    hide ScopeEncoding, RequestEncoding;
  }

  /** Document keys stand for scopes and fingerprints for payloads. */
  predicate Agree(a: Request, b: Request) {
    && (a.documentKey == b.documentKey <==> a.cmd.ScopeOf() == b.cmd.ScopeOf())
    && (a.fingerprint == b.fingerprint <==> a.cmd.Payload() == b.cmd.Payload())
  }

  lemma PreparedAgree(a: Command, b: Command)
    requires a.Fits() && b.Fits()
    ensures Agree(Prepare(a), Prepare(b))
  {
    if ScopeEncoding(a.ScopeOf()) == ScopeEncoding(b.ScopeOf()) {
      ScopeInjective(a.ScopeOf(), b.ScopeOf());
    }
    if RequestEncoding(a.Payload()) == RequestEncoding(b.Payload()) {
      RequestInjective(a.Payload(), b.Payload());
    }
  }

  /**
   Two commands share a document key exactly if organization, creator and key agree, and a fingerprint
   exactly if they order the same for the same creator.
   */
  lemma PreparedExactly(a: Command, b: Command)
    requires a.Fits() && b.Fits()
    ensures Prepare(a).documentKey == Prepare(b).documentKey <==> (a.org, a.creator, a.key) == (b.org, b.creator, b.key)
    ensures Prepare(a).fingerprint == Prepare(b).fingerprint <==>
      && (a.resource, a.creator, a.purpose) == (b.resource, b.creator, b.purpose) && a.interval == b.interval
      && a.kind == b.kind && a.maintenance == b.maintenance
  {
    PreparedAgree(a, b);
    hide ScopeEncoding, RequestEncoding;
  }
}
