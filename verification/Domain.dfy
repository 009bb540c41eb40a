/**
 The reservation domain: values, the six-state lifecycle as a function of one transition, the
 events each transition records, and the creation and conflict policies.
 */
module Domain {
  import opened Wrappers
  import opened Timestamp

  const UINT64_LIMIT := 0x1_0000_0000_0000_0000

  /** Identifier value objects refuse the empty string. */
  type Id = s: string | s != "" witness "x"

  type UInt64 = v: int | 0 <= v < UINT64_LIMIT

  datatype Kind = Standard | Maintenance

  datatype Status = PendingApproval | Confirmed | Cancelled | Rejected | Expired | Completed

  /** Publication of an outbox entry. */
  datatype OutboxStatus = Pending | Publishing | Published

  predicate IsTerminal(status: Status) {
    status.Cancelled? || status.Rejected? || status.Expired? || status.Completed?
  }

  function KindText(kind: Kind): string {
    match kind
    case Standard => "STANDARD"
    case Maintenance => "MAINTENANCE"
  }

  function KindFromText(text: string): Option<Kind> {
    if text == "STANDARD" then Some(Standard)
    else if text == "MAINTENANCE" then Some(Maintenance)
    else None
  }

  function StatusText(status: Status): string {
    match status
    case PendingApproval => "PENDING_APPROVAL"
    case Confirmed => "CONFIRMED"
    case Cancelled => "CANCELLED"
    case Rejected => "REJECTED"
    case Expired => "EXPIRED"
    case Completed => "COMPLETED"
  }

  function StatusFromText(text: string): Option<Status> {
    if text == "PENDING_APPROVAL" then Some(PendingApproval)
    else if text == "CONFIRMED" then Some(Confirmed)
    else if text == "CANCELLED" then Some(Cancelled)
    else if text == "REJECTED" then Some(Rejected)
    else if text == "EXPIRED" then Some(Expired)
    else if text == "COMPLETED" then Some(Completed)
    else None
  }

  lemma StatusTexts(status: Status)
    ensures StatusFromText(StatusText(status)) == Some(status) && StatusText(status) != ""
  {
    assert |StatusText(Cancelled)| == |StatusText(Confirmed)| == |StatusText(Completed)| == 9;
    assert StatusText(Cancelled)[1] != StatusText(Confirmed)[1] && StatusText(Cancelled)[1] != StatusText(Completed)[1];
    assert StatusText(Confirmed)[2] != StatusText(Completed)[2];
    assert |StatusText(Rejected)| == 8 && |StatusText(Expired)| == 7 && |StatusText(PendingApproval)| == 16;
  }

  lemma KindTexts(kind: Kind)
    ensures KindFromText(KindText(kind)) == Some(kind) && KindText(kind) != ""
  {
    assert |KindText(Standard)| != |KindText(Maintenance)|;
  }

  lemma StatusReadBack(text: string)
    requires StatusFromText(text).Some?
    ensures StatusText(StatusFromText(text).value) == text
  {
  }

  lemma KindReadBack(text: string)
    requires KindFromText(text).Some?
    ensures KindText(KindFromText(text).value) == text
  {
  }

  datatype TimeInterval = TimeInterval(start: Instant, end: Instant)
  {
    predicate Covers(t: int) { start <= t < end }

    predicate Overlaps(other: TimeInterval) { start < other.end && end > other.start }

    /** `end - start` on 64 bits; overflow, undefined in C++, is taken to wrap around. */
    function Duration(): int {
      if end - start > INT64_MAX then end - start - UINT64_LIMIT else end - start
    }
  }

  type Interval = i: TimeInterval | i.start < i.end witness TimeInterval(0, 1)

  /** Both bounds have a text. */
  predicate PrintableInterval(interval: Interval) { Printable(interval.start) && Printable(interval.end) }

  datatype ApprovalInfo = ApprovalInfo(actor: Id, at: Instant)
  datatype RejectionInfo = RejectionInfo(actor: Id, at: Instant, reason: Option<string>)
  datatype CancellationInfo = CancellationInfo(actor: Id, at: Instant, reason: Option<string>)

  /** The fields of the aggregate that are persisted. */
  datatype ReservationState = ReservationState(
    org: Id, id: Id, resource: Id, creator: Id, interval: Interval, purpose: string, kind: Kind, status: Status,
    approval: Option<ApprovalInfo>, rejection: Option<RejectionInfo>, cancellation: Option<CancellationInfo>,
    version: UInt64)

  datatype Event =
    | ReservationCreated(eventId: Id, at: Instant, org: Id, id: Id, resource: Id, createdBy: Id, interval: Interval,
                         kind: Kind, initialStatus: Status)
    | ReservationConfirmed(eventId: Id, at: Instant, org: Id, id: Id, resource: Id, interval: Interval,
                           confirmedBy: Option<Id>)
    | ReservationApprovalRequested(eventId: Id, at: Instant, org: Id, id: Id, resource: Id, requestedBy: Id,
                                   interval: Interval, kind: Kind)
    | ReservationRejected(eventId: Id, at: Instant, org: Id, id: Id, resource: Id, rejectedBy: Id)
    | ReservationCancelled(eventId: Id, at: Instant, org: Id, id: Id, resource: Id, cancelledBy: Id,
                           previousStatus: Status, reason: Option<string>)
    | ReservationExtended(eventId: Id, at: Instant, org: Id, id: Id, resource: Id, extendedBy: Id,
                          previous: Interval, extended: Interval)
    | ReservationExpired(eventId: Id, at: Instant, org: Id, id: Id, resource: Id, previousStatus: Status)
    | ReservationCompleted(eventId: Id, at: Instant, org: Id, id: Id, resource: Id, interval: Interval)

  datatype Transition =
    | Approve(actor: Id, at: Instant, eventId: Id)
    | Reject(actor: Id, at: Instant, eventId: Id, reason: Option<string>)
    | Cancel(actor: Id, at: Instant, eventId: Id, reason: Option<string>)
    | Extend(newEnd: Instant, actor: Id, at: Instant, eventId: Id)
    | Expire(at: Instant, eventId: Id)
    | Complete(at: Instant, eventId: Id)

  // ----- Creation -----

  function CreationState(org: Id, id: Id, resource: Id, creator: Id, interval: Interval, purpose: string, kind: Kind,
                         pending: bool): ReservationState {
    ReservationState(org, id, resource, creator, interval, purpose, kind,
                     if pending then PendingApproval else Confirmed, None, None, None, 1)
  }

  /** A creation records two events, the second one nanosecond after the first. */
  function CreationEvents(r: ReservationState, createdId: Id, secondId: Id, at: Instant): seq<Event>
    requires at < INT64_MAX
  {
    [ReservationCreated(createdId, at, r.org, r.id, r.resource, r.creator, r.interval, r.kind, r.status),
     if r.status.PendingApproval?
     then ReservationApprovalRequested(secondId, at + 1, r.org, r.id, r.resource, r.creator, r.interval, r.kind)
     else ReservationConfirmed(secondId, at + 1, r.org, r.id, r.resource, r.interval, None)]
  }

  // ----- Transitions -----

  predicate Enabled(r: ReservationState, t: Transition) {
    match t
    case Approve(_, _, _) => r.status.PendingApproval?
    case Reject(_, _, _, _) => r.status.PendingApproval?
    case Cancel(_, _, _, _) => !IsTerminal(r.status)
    case Extend(newEnd, _, _, _) => r.status.Confirmed? && newEnd > r.interval.end
    case Expire(_, _) => !IsTerminal(r.status)
    case Complete(_, _) => r.status.Confirmed?
  }

  /** One more, on 64 unsigned bits. */
  function NextVersion(version: UInt64): UInt64 {
    if version + 1 == UINT64_LIMIT then 0 else version + 1
  }

  function Next(r: ReservationState, t: Transition): ReservationState
    requires Enabled(r, t)
  {
    var r := r.(version := NextVersion(r.version));
    match t
    case Approve(actor, at, _) => r.(status := Confirmed, approval := Some(ApprovalInfo(actor, at)))
    case Reject(actor, at, _, reason) => r.(status := Rejected, rejection := Some(RejectionInfo(actor, at, reason)))
    case Cancel(actor, at, _, reason) => r.(status := Cancelled, cancellation := Some(CancellationInfo(actor, at, reason)))
    case Extend(newEnd, _, _, _) => r.(interval := TimeInterval(r.interval.start, newEnd))
    case Expire(_, _) => r.(status := Expired)
    case Complete(_, _) => r.(status := Completed)
  }

  function Emitted(r: ReservationState, t: Transition): Event
    requires Enabled(r, t)
  {
    match t
    case Approve(actor, at, eventId) => ReservationConfirmed(eventId, at, r.org, r.id, r.resource, r.interval, Some(actor))
    case Reject(actor, at, eventId, _) => ReservationRejected(eventId, at, r.org, r.id, r.resource, actor)
    case Cancel(actor, at, eventId, reason) =>
      ReservationCancelled(eventId, at, r.org, r.id, r.resource, actor, r.status, reason)
    case Extend(newEnd, actor, at, eventId) =>
      ReservationExtended(eventId, at, r.org, r.id, r.resource, actor, r.interval, TimeInterval(r.interval.start, newEnd))
    case Expire(at, eventId) => ReservationExpired(eventId, at, r.org, r.id, r.resource, r.status)
    case Complete(at, eventId) => ReservationCompleted(eventId, at, r.org, r.id, r.resource, r.interval)
  }

  // ----- Policies -----

  const MAXIMUM_STANDARD_DURATION := 12 * 3600 * SECOND
  const MAXIMUM_MAINTENANCE_DURATION := 24 * 3600 * SECOND

  datatype PolicyViolation =
    NoViolation | MaintenanceAuthorizationRequired | StandardDurationExceeded | MaintenanceDurationExceeded

  /** `ReservationPolicy::evaluate`. */
  function EvaluatePolicy(interval: Interval, kind: Kind, maintenanceAuthorized: bool): PolicyViolation {
    if kind.Maintenance? then
      if !maintenanceAuthorized then MaintenanceAuthorizationRequired
      else if interval.Duration() > MAXIMUM_MAINTENANCE_DURATION then MaintenanceDurationExceeded
      else NoViolation
    else if interval.Duration() > MAXIMUM_STANDARD_DURATION then StandardDurationExceeded
    else NoViolation
  }

  /** The policy in nanoseconds: 24 hours of authorized maintenance, 12 hours otherwise. */
  predicate WithinPolicy(interval: Interval, kind: Kind, maintenanceAuthorized: bool) {
    if kind.Maintenance? then maintenanceAuthorized && interval.end - interval.start <= 86_400_000_000_000
    else interval.end - interval.start <= 43_200_000_000_000
  }

  /** What the code accepts: what the policy allows, and any length that does not fit 64 bits and so wraps around. */
  predicate Accepts(interval: Interval, kind: Kind, maintenanceAuthorized: bool) {
    || WithinPolicy(interval, kind, maintenanceAuthorized)
    || (interval.end - interval.start > 0x7fff_ffff_ffff_ffff && (kind.Standard? || maintenanceAuthorized))
  }

  lemma PolicyAccepts(interval: Interval, kind: Kind, maintenanceAuthorized: bool)
    ensures EvaluatePolicy(interval, kind, maintenanceAuthorized) == NoViolation
            <==> Accepts(interval, kind, maintenanceAuthorized)
  {
  }

  /** The policy decides the true length of an interval exactly when that length fits 64 bits, or authorization is missing. */
  lemma PolicyExact(interval: Interval, kind: Kind, maintenanceAuthorized: bool)
    ensures ((EvaluatePolicy(interval, kind, maintenanceAuthorized) == NoViolation)
             == WithinPolicy(interval, kind, maintenanceAuthorized))
            <==> (interval.end - interval.start <= INT64_MAX || (kind.Maintenance? && !maintenanceAuthorized))
  {
    if interval.end - interval.start > INT64_MAX {
      assert interval.Duration() < 0;
    }
  }

  datatype Resource = Resource(org: Id, id: Id, resourceType: string, active: bool, requiresApproval: bool, totalUnits: nat)

  datatype CreationDecision =
    | ConfirmCreation
    | AwaitApproval
    | ResourceInactive
    | DeniedByPolicy(violation: PolicyViolation)

  /** `ReservationCreationPolicy::evaluate`. */
  function EvaluateCreation(resource: Resource, interval: Interval, kind: Kind, maintenanceAuthorized: bool)
    : CreationDecision
  {
    if !resource.active then ResourceInactive
    else
      var violation := EvaluatePolicy(interval, kind, maintenanceAuthorized);
      if violation != NoViolation then DeniedByPolicy(violation)
      else if resource.requiresApproval then AwaitApproval
      else ConfirmCreation
  }

  predicate BlocksSchedule(status: Status) {
    status.Confirmed?
  }

  /** `has_reservation_conflict`. */
  predicate HasConflict(requested: Interval, existing: Interval, status: Status) {
    BlocksSchedule(status) && requested.Overlaps(existing)
  }

  /** Two intervals overlap if and only if some instant lies in both; bounds that touch do not. */
  lemma OverlapsExactly(a: Interval, b: Interval)
    ensures a.Overlaps(b) <==> exists t: int :: a.Covers(t) && b.Covers(t)
    ensures forall t: int :: a.Covers(t) <==> a.start <= t < a.end
  {
    if a.Overlaps(b) {
      var t := if a.start < b.start then b.start else a.start;
      assert a.Covers(t) && b.Covers(t);
    }
  }

  /** `static_cast<int>` of an unsigned number. */
  function ToInt32(v: nat): int {
    var low := v % 0x1_0000_0000;
    if low >= 0x8000_0000 then low - 0x1_0000_0000 else low
  }

  /** The cast keeps the low 32 bits and lands in the range of `int`. */
  lemma ToInt32Exact(v: nat)
    ensures -0x8000_0000 <= ToInt32(v) < 0x8000_0000 && (v - ToInt32(v)) % 0x1_0000_0000 == 0
    ensures v < 0x8000_0000 ==> ToInt32(v) == v
  {
    var high := v / 0x1_0000_0000;
    assert v - ToInt32(v) == 0x1_0000_0000 * high || v - ToInt32(v) == 0x1_0000_0000 * (high + 1);
  }
}
