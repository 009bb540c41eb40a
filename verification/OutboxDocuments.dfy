/** The outbox document: the mapping of every domain event, and the validation the repository applies to it. */
module OutboxDocuments {
  import opened Wrappers
  import opened Timestamp
  import opened Domain
  import opened Lifecycle
  import opened Documents

  datatype EventKind =
    CreatedKind | ConfirmedKind | ApprovalRequestedKind | RejectedKind | CancelledKind | ExtendedKind | ExpiredKind
    | CompletedKind

  function EventKindText(kind: EventKind): string {
    match kind
    case CreatedKind => "ReservationCreated"
    case ConfirmedKind => "ReservationConfirmed"
    case ApprovalRequestedKind => "ReservationApprovalRequested"
    case RejectedKind => "ReservationRejected"
    case CancelledKind => "ReservationCancelled"
    case ExtendedKind => "ReservationExtended"
    case ExpiredKind => "ReservationExpired"
    case CompletedKind => "ReservationCompleted"
  }

  function EventKindFromText(text: string): Option<EventKind> {
    if text == "ReservationCreated" then Some(CreatedKind)
    else if text == "ReservationConfirmed" then Some(ConfirmedKind)
    else if text == "ReservationApprovalRequested" then Some(ApprovalRequestedKind)
    else if text == "ReservationRejected" then Some(RejectedKind)
    else if text == "ReservationCancelled" then Some(CancelledKind)
    else if text == "ReservationExtended" then Some(ExtendedKind)
    else if text == "ReservationExpired" then Some(ExpiredKind)
    else if text == "ReservationCompleted" then Some(CompletedKind)
    else None
  }

  datatype OutboxDocument = OutboxDocument(
    schemaVersion: UInt64, eventId: Id, organizationId: Id, aggregateId: Id, aggregateType: string, eventType: string,
    occurredAt: Instant, status: OutboxStatus, attemptCount: nat, payload: Json, publishedAt: Option<Instant>)
  {
    /** `validate_outbox_document`. */
    predicate Valid() {
      && schemaVersion == 1 && aggregateType == "Reservation"
      && EventKindFromText(eventType).Some? && ValidPayload(EventKindFromText(eventType).value, payload)
      && (status.Published? <==> publishedAt.Some?)
    }
  }

  // ----- Payloads -----

  function KindOf(e: Event): EventKind {
    match e
    case ReservationCreated(_, _, _, _, _, _, _, _, _) => CreatedKind
    case ReservationConfirmed(_, _, _, _, _, _, _) => ConfirmedKind
    case ReservationApprovalRequested(_, _, _, _, _, _, _, _) => ApprovalRequestedKind
    case ReservationRejected(_, _, _, _, _, _) => RejectedKind
    case ReservationCancelled(_, _, _, _, _, _, _, _) => CancelledKind
    case ReservationExtended(_, _, _, _, _, _, _, _) => ExtendedKind
    case ReservationExpired(_, _, _, _, _, _) => ExpiredKind
    case ReservationCompleted(_, _, _, _, _, _) => CompletedKind
  }

  function IntervalPayload(interval: Interval): Option<map<Name, Json>> {
    var start :- TimeText(interval.start);
    var end :- TimeText(interval.end);
    Some(map[StartTime := Text(start), EndTime := Text(end)])
  }

  /** The members of `payload_for`. */
  function PayloadFor(e: Event): Option<map<Name, Json>> {
    match e
    case ReservationCreated(_, _, _, _, resource, createdBy, interval, kind, initialStatus) =>
      var payload :- IntervalPayload(interval);
      Some(payload[ResourceId := Text(resource)][CreatedBy := Text(createdBy)][KindName := Text(KindText(kind))]
                  [InitialStatus := Text(StatusText(initialStatus))])
    case ReservationConfirmed(_, _, _, _, resource, interval, confirmedBy) =>
      var payload :- IntervalPayload(interval);
      Some(WithText(payload[ResourceId := Text(resource)], ConfirmedBy, confirmedBy))
    case ReservationApprovalRequested(_, _, _, _, resource, requestedBy, interval, kind) =>
      var payload :- IntervalPayload(interval);
      Some(payload[ResourceId := Text(resource)][RequestedBy := Text(requestedBy)][KindName := Text(KindText(kind))])
    case ReservationRejected(_, _, _, _, resource, rejectedBy) =>
      Some(map[ResourceId := Text(resource), RejectedBy := Text(rejectedBy)])
    case ReservationCancelled(_, _, _, _, resource, cancelledBy, previousStatus, reason) =>
      Some(WithText(map[ResourceId := Text(resource), CancelledBy := Text(cancelledBy),
                        PreviousStatus := Text(StatusText(previousStatus))], Reason, reason))
    case ReservationExtended(_, _, _, _, resource, extendedBy, previous, extended) =>
      var previousStart :- TimeText(previous.start);
      var previousEnd :- TimeText(previous.end);
      var extendedStart :- TimeText(extended.start);
      var extendedEnd :- TimeText(extended.end);
      Some(map[ResourceId := Text(resource), ExtendedBy := Text(extendedBy), PreviousStartTime := Text(previousStart),
               PreviousEndTime := Text(previousEnd), ExtendedStartTime := Text(extendedStart),
               ExtendedEndTime := Text(extendedEnd)])
    case ReservationExpired(_, _, _, _, resource, previousStatus) =>
      Some(map[ResourceId := Text(resource), PreviousStatus := Text(StatusText(previousStatus))])
    case ReservationCompleted(_, _, _, _, resource, interval) =>
      var payload :- IntervalPayload(interval);
      Some(payload[ResourceId := Text(resource)])
  }

  /** `required_string`. */
  function Required(payload: Json, name: Name): Option<Id> {
    var text :- payload.TextAt(name);
    if text == "" then None else Some(text)
  }

  /** `required_interval`: both texts are times and the interval is not empty. */
  function RequiredInterval(payload: Json, start: Name, end: Name): Option<Interval> {
    var startText :- Required(payload, start);
    var endText :- Required(payload, end);
    var startTime :- TimeValue(startText);
    var endTime :- TimeValue(endText);
    if startTime < endTime then Some(TimeInterval(startTime, endTime)) else None
  }

  function RequiredStatus(payload: Json, name: Name): Option<Status> {
    var text :- Required(payload, name);
    StatusFromText(text)
  }

  function RequiredKind(payload: Json, name: Name): Option<Kind> {
    var text :- Required(payload, name);
    KindFromText(text)
  }

  predicate LiveStatus(status: Option<Status>) {
    status == Some(Confirmed) || status == Some(PendingApproval)
  }

  /** `validate_payload`. */
  predicate ValidPayload(kind: EventKind, payload: Json) {
    payload.Object? && Required(payload, ResourceId).Some? &&
    match kind
    case CreatedKind =>
      && Required(payload, CreatedBy).Some? && RequiredInterval(payload, StartTime, EndTime).Some?
      && RequiredKind(payload, KindName).Some? && LiveStatus(RequiredStatus(payload, InitialStatus))
    case ConfirmedKind =>
      && RequiredInterval(payload, StartTime, EndTime).Some?
      && (payload.Has(ConfirmedBy) ==> Required(payload, ConfirmedBy).Some?)
    case ApprovalRequestedKind =>
      && Required(payload, RequestedBy).Some? && RequiredInterval(payload, StartTime, EndTime).Some?
      && RequiredKind(payload, KindName).Some?
    case RejectedKind => Required(payload, RejectedBy).Some?
    case CancelledKind => Required(payload, CancelledBy).Some? && LiveStatus(RequiredStatus(payload, PreviousStatus))
    case ExtendedKind =>
      && Required(payload, ExtendedBy).Some?
      && var previous, extended := RequiredInterval(payload, PreviousStartTime, PreviousEndTime),
                                   RequiredInterval(payload, ExtendedStartTime, ExtendedEndTime);
         && previous.Some? && extended.Some? && previous.value.start == extended.value.start
         && previous.value.end < extended.value.end
    case ExpiredKind => LiveStatus(RequiredStatus(payload, PreviousStatus))
    case CompletedKind => RequiredInterval(payload, StartTime, EndTime).Some?
  }

  function DocumentOf(e: Event, payload: Json): OutboxDocument {
    OutboxDocument(1, e.eventId, e.org, e.id, "Reservation", EventKindText(KindOf(e)), e.at, Pending, 0, payload, None)
  }

  /** `to_outbox_document`. */
  function ToDocument(org: Id, aggregate: Id, e: Event): Option<OutboxDocument> {
    if e.org != org || e.id != aggregate then None else
    var payload :- PayloadFor(e);
    var document := DocumentOf(e, Object(payload));
    if document.Valid() then Some(document) else None
  }

  function OptionalId(payload: Json, name: Name): Option<Option<Id>> {
    if !payload.Has(name) then Some(None) else
    var id :- Required(payload, name);
    Some(Some(id))
  }

  /** What a consumer can read back from a document: the whole event. A reason that is no text, which nothing checks, is no reason. */
  function EventOf(d: OutboxDocument): Option<Event> {
    var kind :- EventKindFromText(d.eventType);
    var resource :- Required(d.payload, ResourceId);
    match kind
    case CreatedKind =>
      var createdBy :- Required(d.payload, CreatedBy);
      var interval :- RequiredInterval(d.payload, StartTime, EndTime);
      var reservationKind :- RequiredKind(d.payload, KindName);
      var status :- RequiredStatus(d.payload, InitialStatus);
      Some(ReservationCreated(d.eventId, d.occurredAt, d.organizationId, d.aggregateId, resource, createdBy, interval,
                              reservationKind, status))
    case ConfirmedKind =>
      var interval :- RequiredInterval(d.payload, StartTime, EndTime);
      var confirmedBy :- OptionalId(d.payload, ConfirmedBy);
      Some(ReservationConfirmed(d.eventId, d.occurredAt, d.organizationId, d.aggregateId, resource, interval, confirmedBy))
    case ApprovalRequestedKind =>
      var requestedBy :- Required(d.payload, RequestedBy);
      var interval :- RequiredInterval(d.payload, StartTime, EndTime);
      var reservationKind :- RequiredKind(d.payload, KindName);
      Some(ReservationApprovalRequested(d.eventId, d.occurredAt, d.organizationId, d.aggregateId, resource, requestedBy,
                                        interval, reservationKind))
    case RejectedKind =>
      var rejectedBy :- Required(d.payload, RejectedBy);
      Some(ReservationRejected(d.eventId, d.occurredAt, d.organizationId, d.aggregateId, resource, rejectedBy))
    case CancelledKind =>
      var cancelledBy :- Required(d.payload, CancelledBy);
      var status :- RequiredStatus(d.payload, PreviousStatus);
      Some(ReservationCancelled(d.eventId, d.occurredAt, d.organizationId, d.aggregateId, resource, cancelledBy, status,
                                d.payload.TextAt(Reason)))
    case ExtendedKind =>
      var extendedBy :- Required(d.payload, ExtendedBy);
      var previous :- RequiredInterval(d.payload, PreviousStartTime, PreviousEndTime);
      var extended :- RequiredInterval(d.payload, ExtendedStartTime, ExtendedEndTime);
      Some(ReservationExtended(d.eventId, d.occurredAt, d.organizationId, d.aggregateId, resource, extendedBy, previous,
                               extended))
    case ExpiredKind =>
      var status :- RequiredStatus(d.payload, PreviousStatus);
      Some(ReservationExpired(d.eventId, d.occurredAt, d.organizationId, d.aggregateId, resource, status))
    case CompletedKind =>
      var interval :- RequiredInterval(d.payload, StartTime, EndTime);
      Some(ReservationCompleted(d.eventId, d.occurredAt, d.organizationId, d.aggregateId, resource, interval))
  }

  // ----- Which events are accepted -----

  /** Every interval in the event can be printed. */
  predicate PrintableEvent(e: Event) {
    match e
    case ReservationCreated(_, _, _, _, _, _, interval, _, _) => PrintableInterval(interval)
    case ReservationConfirmed(_, _, _, _, _, interval, _) => PrintableInterval(interval)
    case ReservationApprovalRequested(_, _, _, _, _, _, interval, _) => PrintableInterval(interval)
    case ReservationRejected(_, _, _, _, _, _) => true
    case ReservationCancelled(_, _, _, _, _, _, _, _) => true
    case ReservationExtended(_, _, _, _, _, _, previous, extended) => PrintableInterval(previous) && PrintableInterval(extended)
    case ReservationExpired(_, _, _, _, _, _) => true
    case ReservationCompleted(_, _, _, _, _, interval) => PrintableInterval(interval)
  }

  /** The statuses and intervals in the event are those of a live reservation. */
  predicate Sound(e: Event) {
    match e
    case ReservationCreated(_, _, _, _, _, _, _, _, initialStatus) => !IsTerminal(initialStatus)
    case ReservationCancelled(_, _, _, _, _, _, previousStatus, _) => !IsTerminal(previousStatus)
    case ReservationExpired(_, _, _, _, _, previousStatus) => !IsTerminal(previousStatus)
    case ReservationExtended(_, _, _, _, _, _, previous, extended) =>
      previous.start == extended.start && previous.end < extended.end
    case _ => true
  }

  lemma EventKindTexts(kind: EventKind)
    ensures EventKindFromText(EventKindText(kind)) == Some(kind)
  {
    var created, confirmed, requested, rejected := EventKindText(CreatedKind), EventKindText(ConfirmedKind),
      EventKindText(ApprovalRequestedKind), EventKindText(RejectedKind);
    var cancelled, extended, expired, completed := EventKindText(CancelledKind), EventKindText(ExtendedKind),
      EventKindText(ExpiredKind), EventKindText(CompletedKind);
    assert |requested| == 28 && |expired| == 18 && |created| == 18 && created[11] != expired[11];
    assert |rejected| == |extended| == 19 && rejected[11] != extended[11];
    assert |confirmed| == |cancelled| == |completed| == 20;
    assert confirmed[13] == 'n' && cancelled[12] == 'a' && confirmed[12] == 'o' && completed[12] == 'o' && completed[13] == 'm';
  }

  lemma IntervalWritten(interval: Interval)
    ensures IntervalPayload(interval).Some? <==> PrintableInterval(interval)
    ensures PrintableInterval(interval) ==>
      IntervalPayload(interval) == Some(map[StartTime := Text(TimeText(interval.start).value),
                                            EndTime := Text(TimeText(interval.end).value)])
  {
    hide TimeText, TimeValue, Printable;
    TimeTextRoundTrip(interval.start);
    TimeTextRoundTrip(interval.end);
  }

  lemma IntervalRead(payload: Json, interval: Interval, start: Name, end: Name)
    requires PrintableInterval(interval) && TimeText(interval.start).Some? && TimeText(interval.end).Some?
    requires payload.TextAt(start) == TimeText(interval.start) && payload.TextAt(end) == TimeText(interval.end)
    ensures RequiredInterval(payload, start, end) == Some(interval)
  {
    hide TimeText, TimeValue, Printable, Json.TextAt;
    TimeTextRoundTrip(interval.start);
    TimeTextRoundTrip(interval.end);
  }

  lemma StatusRead(payload: Json, name: Name, status: Status)
    requires payload.TextAt(name) == Some(StatusText(status))
    ensures RequiredStatus(payload, name) == Some(status) && (LiveStatus(Some(status)) <==> !IsTerminal(status))
  {
    hide StatusText, StatusFromText, Json.TextAt;
    StatusTexts(status);
  }

  lemma KindRead(payload: Json, name: Name, kind: Kind)
    requires payload.TextAt(name) == Some(KindText(kind))
    ensures RequiredKind(payload, name) == Some(kind)
  {
    hide KindText, KindFromText, Json.TextAt;
    KindTexts(kind);
  }

  /** The payload of an event is accepted exactly if the event is sound, and gives the event back. */
  predicate Accepted(e: Event) {
    && (PayloadFor(e).Some? <==> PrintableEvent(e))
    && (PayloadFor(e).Some? ==>
          var payload := Object(PayloadFor(e).value);
          && (ValidPayload(KindOf(e), payload) <==> Sound(e))
          && (Sound(e) ==> EventOf(DocumentOf(e, payload)) == Some(e)))
  }

  lemma CreatedAccepted(e: Event)
    requires e.ReservationCreated?
    ensures Accepted(e)
  {
    hide IntervalPayload, RequiredInterval, RequiredStatus, RequiredKind, TimeText, StatusText, KindText, EventKindText,
         EventKindFromText, LiveStatus, PrintableInterval;
    EventKindTexts(CreatedKind);
    IntervalWritten(e.interval);
    if PrintableInterval(e.interval) {
      PrintedTexts(e.interval);
      var payload := Object(PayloadFor(e).value);
      IntervalRead(payload, e.interval, StartTime, EndTime);
      StatusRead(payload, InitialStatus, e.initialStatus);
      KindRead(payload, KindName, e.kind);
    }
  }

  lemma PrintedTexts(interval: Interval)
    requires PrintableInterval(interval)
    ensures TimeText(interval.start).Some? && TimeText(interval.end).Some?
  {
    hide TimeText, TimeValue, Printable;
    TimeTextRoundTrip(interval.start);
    TimeTextRoundTrip(interval.end);
  }

  lemma ConfirmedAccepted(e: Event)
    requires e.ReservationConfirmed?
    ensures Accepted(e)
  {
    hide IntervalPayload, RequiredInterval, TimeText, EventKindText, EventKindFromText, PrintableInterval;
    EventKindTexts(ConfirmedKind);
    IntervalWritten(e.interval);
    if PrintableInterval(e.interval) {
      PrintedTexts(e.interval);
      var payload := Object(PayloadFor(e).value);
      IntervalRead(payload, e.interval, StartTime, EndTime);
      assert payload.Has(ConfirmedBy) <==> e.confirmedBy.Some?;
    }
  }

  lemma RequestedAccepted(e: Event)
    requires e.ReservationApprovalRequested?
    ensures Accepted(e)
  {
    hide IntervalPayload, RequiredInterval, RequiredKind, TimeText, KindText, EventKindText, EventKindFromText,
         PrintableInterval;
    EventKindTexts(ApprovalRequestedKind);
    IntervalWritten(e.interval);
    if PrintableInterval(e.interval) {
      PrintedTexts(e.interval);
      var payload := Object(PayloadFor(e).value);
      IntervalRead(payload, e.interval, StartTime, EndTime);
      KindRead(payload, KindName, e.kind);
    }
  }

  lemma DecisionAccepted(e: Event)
    requires e.ReservationRejected? || e.ReservationCancelled? || e.ReservationExpired?
    ensures Accepted(e)
  {
    hide RequiredStatus, StatusText, EventKindText, EventKindFromText, LiveStatus;
    EventKindTexts(KindOf(e));
    var payload := Object(PayloadFor(e).value);
    match e
    case ReservationCancelled(_, _, _, _, _, _, previousStatus, _) => StatusRead(payload, PreviousStatus, previousStatus);
    case ReservationExpired(_, _, _, _, _, previousStatus) => StatusRead(payload, PreviousStatus, previousStatus);
    case ReservationRejected(_, _, _, _, _, _) =>
  }

  lemma ExtendedAccepted(e: Event)
    requires e.ReservationExtended?
    ensures Accepted(e)
  {
    hide RequiredInterval, TimeText, EventKindText, EventKindFromText, PrintableInterval;
    EventKindTexts(ExtendedKind);
    IntervalPrinted(e.previous);
    IntervalPrinted(e.extended);
    if PrintableInterval(e.previous) && PrintableInterval(e.extended) {
      var payload := Object(PayloadFor(e).value);
      IntervalRead(payload, e.previous, PreviousStartTime, PreviousEndTime);
      IntervalRead(payload, e.extended, ExtendedStartTime, ExtendedEndTime);
    }
  }

  lemma IntervalPrinted(interval: Interval)
    ensures PrintableInterval(interval) <==> TimeText(interval.start).Some? && TimeText(interval.end).Some?
  {
    hide TimeText, TimeValue, Printable;
    TimeTextRoundTrip(interval.start);
    TimeTextRoundTrip(interval.end);
  }

  lemma CompletedAccepted(e: Event)
    requires e.ReservationCompleted?
    ensures Accepted(e)
  {
    hide IntervalPayload, RequiredInterval, TimeText, EventKindText, EventKindFromText, PrintableInterval;
    EventKindTexts(CompletedKind);
    IntervalWritten(e.interval);
    if PrintableInterval(e.interval) {
      PrintedTexts(e.interval);
      IntervalRead(Object(PayloadFor(e).value), e.interval, StartTime, EndTime);
    }
  }

  lemma AllAccepted(e: Event)
    ensures Accepted(e)
  {
    hide Accepted;
    match e
    case ReservationCreated(_, _, _, _, _, _, _, _, _) => CreatedAccepted(e);
    case ReservationConfirmed(_, _, _, _, _, _, _) => ConfirmedAccepted(e);
    case ReservationApprovalRequested(_, _, _, _, _, _, _, _) => RequestedAccepted(e);
    case ReservationRejected(_, _, _, _, _, _) => DecisionAccepted(e);
    case ReservationCancelled(_, _, _, _, _, _, _, _) => DecisionAccepted(e);
    case ReservationExtended(_, _, _, _, _, _, _, _) => ExtendedAccepted(e);
    case ReservationExpired(_, _, _, _, _, _) => DecisionAccepted(e);
    case ReservationCompleted(_, _, _, _, _, _) => CompletedAccepted(e);
  }

  /**
   An event of the aggregate becomes a valid pending document exactly if it is addressed to it,
   its intervals can be printed and its content is sound; the document carries the whole event.
   */
  lemma EventRoundTrip(org: Id, aggregate: Id, e: Event)
    ensures ToDocument(org, aggregate, e).Some? <==> e.org == org && e.id == aggregate && PrintableEvent(e) && Sound(e)
    ensures ToDocument(org, aggregate, e).Some? ==>
      var d := ToDocument(org, aggregate, e).value;
      d.Valid() && EventOf(d) == Some(e) && Carries(d, e) && d.status.Pending? && d.attemptCount == 0
  {
    hide PayloadFor, ValidPayload, EventOf, PrintableEvent, Sound, EventKindText, EventKindFromText, Carries;
    AllAccepted(e);
    EventKindTexts(KindOf(e));
    if ToDocument(org, aggregate, e).Some? { EventCarried(ToDocument(org, aggregate, e).value, e); }
  }

  /** Every event the aggregate records is sound, so it is accepted whenever its intervals can be printed. */
  lemma EmittedAccepted(r: ReservationState, t: Transition)
    requires Enabled(r, t)
    ensures ToDocument(r.org, r.id, Emitted(r, t)).Some? <==> PrintableEvent(Emitted(r, t))
  {
    EventRoundTrip(r.org, r.id, Emitted(r, t));
    hide ToDocument, PrintableEvent, EventOf, OutboxDocument.Valid;
  }

  lemma CreationAccepted(r: ReservationState, createdId: Id, secondId: Id, at: Instant, i: nat)
    requires IsCreation(r) && at < INT64_MAX && i < 2
    ensures ToDocument(r.org, r.id, CreationEvents(r, createdId, secondId, at)[i]).Some? <==> PrintableInterval(r.interval)
  {
    hide ToDocument, PrintableInterval, EventOf, OutboxDocument.Valid;
    var e := CreationEvents(r, createdId, secondId, at)[i];
    assert e.org == r.org && e.id == r.id && Sound(e) && (PrintableEvent(e) <==> PrintableInterval(r.interval));
    hide CreationEvents, Sound, PrintableEvent, IsCreation;
    EventRoundTrip(r.org, r.id, e);
  }

  // ----- What a document says -----

  predicate TimeAt(payload: Json, name: Name, t: Instant) {
    payload.TextAt(name).Some? && TimeValue(payload.TextAt(name).value) == Some(t)
  }

  predicate IntervalAt(payload: Json, start: Name, end: Name, interval: Interval) {
    TimeAt(payload, start, interval.start) && TimeAt(payload, end, interval.end)
  }

  /** The member has the text of the status or the kind. */
  predicate StatusAt(payload: Json, name: Name, status: Status) {
    payload.TextAt(name) == Some(
      match status
      case PendingApproval => "PENDING_APPROVAL"
      case Confirmed => "CONFIRMED"
      case Cancelled => "CANCELLED"
      case Rejected => "REJECTED"
      case Expired => "EXPIRED"
      case Completed => "COMPLETED")
  }

  predicate KindAt(payload: Json, name: Name, kind: Kind) {
    payload.TextAt(name) == Some(if kind.Maintenance? then "MAINTENANCE" else "STANDARD")
  }

  /** Each field of the event under the member of its name, below the type of the event. */
  predicate Tells(eventType: string, payload: Json, e: Event) {
    payload.TextAt(ResourceId) == Some(e.resource) &&
    match e
    case ReservationCreated(_, _, _, _, _, createdBy, interval, kind, initialStatus) =>
      && eventType == "ReservationCreated"
      && payload.TextAt(CreatedBy) == Some(createdBy) && IntervalAt(payload, StartTime, EndTime, interval)
      && KindAt(payload, KindName, kind) && StatusAt(payload, InitialStatus, initialStatus)
    case ReservationConfirmed(_, _, _, _, _, interval, confirmedBy) =>
      && eventType == "ReservationConfirmed" && IntervalAt(payload, StartTime, EndTime, interval)
      && (payload.Has(ConfirmedBy) <==> confirmedBy.Some?) && payload.TextAt(ConfirmedBy) == confirmedBy
    case ReservationApprovalRequested(_, _, _, _, _, requestedBy, interval, kind) =>
      && eventType == "ReservationApprovalRequested"
      && payload.TextAt(RequestedBy) == Some(requestedBy) && IntervalAt(payload, StartTime, EndTime, interval)
      && KindAt(payload, KindName, kind)
    case ReservationRejected(_, _, _, _, _, rejectedBy) =>
      eventType == "ReservationRejected" && payload.TextAt(RejectedBy) == Some(rejectedBy)
    case ReservationCancelled(_, _, _, _, _, cancelledBy, previousStatus, reason) =>
      && eventType == "ReservationCancelled" && payload.TextAt(CancelledBy) == Some(cancelledBy)
      && StatusAt(payload, PreviousStatus, previousStatus) && payload.TextAt(Reason) == reason
    case ReservationExtended(_, _, _, _, _, extendedBy, previous, extended) =>
      && eventType == "ReservationExtended" && payload.TextAt(ExtendedBy) == Some(extendedBy)
      && IntervalAt(payload, PreviousStartTime, PreviousEndTime, previous)
      && IntervalAt(payload, ExtendedStartTime, ExtendedEndTime, extended)
    case ReservationExpired(_, _, _, _, _, previousStatus) =>
      eventType == "ReservationExpired" && StatusAt(payload, PreviousStatus, previousStatus)
    case ReservationCompleted(_, _, _, _, _, interval) =>
      eventType == "ReservationCompleted" && IntervalAt(payload, StartTime, EndTime, interval)
  }

  lemma TextExactly(payload: Json, name: Name, id: Id)
    ensures Required(payload, name) == Some(id) <==> payload.TextAt(name) == Some(id)
  {
  }

  lemma IntervalExactly(payload: Json, start: Name, end: Name, interval: Interval)
    ensures RequiredInterval(payload, start, end) == Some(interval) <==> IntervalAt(payload, start, end, interval)
  {
    hide TimeValue, Json.TextAt, TimeAt, Required;
    TimeExactly(payload, start, interval.start);
    TimeExactly(payload, end, interval.end);
  }

  lemma TimeExactly(payload: Json, name: Name, t: Instant)
    ensures TimeAt(payload, name, t) <==>
      Required(payload, name).Some? && TimeValue(Required(payload, name).value) == Some(t)
  {
    hide TimeValue, Json.TextAt;
    NoTime();
  }

  lemma NoTime()
    ensures TimeValue("") == None
  {
    hide ReadFields;
    assert |""| == 0;
  }

  lemma StatusExactly(payload: Json, name: Name, status: Status)
    ensures RequiredStatus(payload, name) == Some(status) <==> StatusAt(payload, name, status)
  {
    hide Json.TextAt;
    StatusTexts(status);
  }

  lemma KindExactly(payload: Json, name: Name, kind: Kind)
    ensures RequiredKind(payload, name) == Some(kind) <==> KindAt(payload, name, kind)
  {
    hide Json.TextAt;
    KindTexts(kind);
  }

  lemma KindExactlyRead(text: string, kind: EventKind)
    ensures EventKindFromText(text) == Some(kind) <==> text == EventKindText(kind)
  {
    EventKindTexts(kind);
  }

  /** Of the document, the event has the identifiers and the time. */
  predicate Addressed(d: OutboxDocument, e: Event) {
    d.eventId == e.eventId && d.occurredAt == e.at && d.organizationId == e.org && d.aggregateId == e.id
  }

  predicate Carries(d: OutboxDocument, e: Event) {
    Addressed(d, e) && Tells(d.eventType, d.payload, e)
  }

  lemma IntervalsCarried(d: OutboxDocument, e: Event)
    requires e.ReservationCreated? || e.ReservationConfirmed? || e.ReservationApprovalRequested? || e.ReservationCompleted?
    ensures EventOf(d) == Some(e) <==> Carries(d, e)
  {
    hide EventKindFromText, RequiredInterval, RequiredStatus, RequiredKind, IntervalAt, StatusAt, KindAt, Json.TextAt,
         Required;
    KindExactlyRead(d.eventType, KindOf(e));
    TextExactly(d.payload, ResourceId, e.resource);
    IntervalExactly(d.payload, StartTime, EndTime, e.interval);
    match e {
      case ReservationCreated(_, _, _, _, _, createdBy, _, kind, initialStatus) =>
        TextExactly(d.payload, CreatedBy, createdBy);
        KindExactly(d.payload, KindName, kind);
        StatusExactly(d.payload, InitialStatus, initialStatus);
      case ReservationApprovalRequested(_, _, _, _, _, requestedBy, _, kind) =>
        TextExactly(d.payload, RequestedBy, requestedBy);
        KindExactly(d.payload, KindName, kind);
      case ReservationConfirmed(_, _, _, _, _, _, confirmedBy) => OptionalExactly(d.payload, ConfirmedBy, confirmedBy);
      case ReservationCompleted(_, _, _, _, _, _) =>
    }
  }

  lemma OptionalExactly(payload: Json, name: Name, id: Option<Id>)
    ensures OptionalId(payload, name) == Some(id) <==> (payload.Has(name) <==> id.Some?) && payload.TextAt(name) == id
  {
  }

  lemma DecisionsCarried(d: OutboxDocument, e: Event)
    requires e.ReservationRejected? || e.ReservationCancelled? || e.ReservationExtended? || e.ReservationExpired?
    ensures EventOf(d) == Some(e) <==> Carries(d, e)
  {
    hide EventKindFromText, RequiredInterval, RequiredStatus, IntervalAt, StatusAt, Json.TextAt, Required;
    KindExactlyRead(d.eventType, KindOf(e));
    TextExactly(d.payload, ResourceId, e.resource);
    match e {
      case ReservationRejected(_, _, _, _, _, rejectedBy) => TextExactly(d.payload, RejectedBy, rejectedBy);
      case ReservationCancelled(_, _, _, _, _, cancelledBy, previousStatus, _) =>
        TextExactly(d.payload, CancelledBy, cancelledBy);
        StatusExactly(d.payload, PreviousStatus, previousStatus);
      case ReservationExtended(_, _, _, _, _, extendedBy, previous, extended) =>
        TextExactly(d.payload, ExtendedBy, extendedBy);
        IntervalExactly(d.payload, PreviousStartTime, PreviousEndTime, previous);
        IntervalExactly(d.payload, ExtendedStartTime, ExtendedEndTime, extended);
      case ReservationExpired(_, _, _, _, _, previousStatus) => StatusExactly(d.payload, PreviousStatus, previousStatus);
    }
  }

  /** A document carries exactly the event whose fields are its header and the members of its payload. */
  lemma EventCarried(d: OutboxDocument, e: Event)
    ensures EventOf(d) == Some(e) <==> Carries(d, e)
  {
    hide EventOf, Carries;
    if e.ReservationRejected? || e.ReservationCancelled? || e.ReservationExtended? || e.ReservationExpired? {
      DecisionsCarried(d, e);
    } else {
      IntervalsCarried(d, e);
    }
  }

  /** Validation accepts a document exactly if it carries a sound event, and a time of publication once published. */
  lemma ValidExactly(d: OutboxDocument)
    ensures d.Valid() <==>
      && d.schemaVersion == 1 && d.aggregateType == "Reservation" && (d.status.Published? <==> d.publishedAt.Some?)
      && exists e :: Carries(d, e) && Sound(e)
  {
    hide Carries, Sound, EventOf;
    PayloadCarries(d);
    if EventOf(d).Some? { EventCarried(d, EventOf(d).value); }
    forall e | Carries(d, e) ensures EventOf(d) == Some(e) { EventCarried(d, e); }
  }

  lemma PayloadCarries(d: OutboxDocument)
    ensures EventKindFromText(d.eventType).Some? && ValidPayload(EventKindFromText(d.eventType).value, d.payload) <==>
      EventOf(d).Some? && Sound(EventOf(d).value)
  {
    hide ValidPayload, EventKindFromText, Required;
    if EventKindFromText(d.eventType).Some? {
      var kind := EventKindFromText(d.eventType).value;
      if kind.CreatedKind? || kind.ApprovalRequestedKind? { RequestsValid(d, kind); }
      else if kind.ConfirmedKind? || kind.CompletedKind? { ConfirmationsValid(d, kind); }
      else if kind.ExtendedKind? { ExtensionValid(d, kind); }
      else { DecisionsValid(d, kind); }
    }
  }

  lemma RequestsValid(d: OutboxDocument, kind: EventKind)
    requires EventKindFromText(d.eventType) == Some(kind) && (kind.CreatedKind? || kind.ApprovalRequestedKind?)
    ensures ValidPayload(kind, d.payload) <==> EventOf(d).Some? && Sound(EventOf(d).value)
  {
    assert Required(d.payload, ResourceId).Some? ==> d.payload.Object?;
    hide EventKindFromText, RequiredInterval, RequiredStatus, RequiredKind, Required;
  }

  lemma ConfirmationsValid(d: OutboxDocument, kind: EventKind)
    requires EventKindFromText(d.eventType) == Some(kind) && (kind.ConfirmedKind? || kind.CompletedKind?)
    ensures ValidPayload(kind, d.payload) <==> EventOf(d).Some? && Sound(EventOf(d).value)
  {
    assert Required(d.payload, ResourceId).Some? ==> d.payload.Object?;
    hide EventKindFromText, RequiredInterval, RequiredStatus, RequiredKind, Required;
  }

  lemma ExtensionValid(d: OutboxDocument, kind: EventKind)
    requires EventKindFromText(d.eventType) == Some(kind) && (kind.ExtendedKind?)
    ensures ValidPayload(kind, d.payload) <==> EventOf(d).Some? && Sound(EventOf(d).value)
  {
    assert Required(d.payload, ResourceId).Some? ==> d.payload.Object?;
    hide EventKindFromText, RequiredInterval, RequiredStatus, RequiredKind, Required;
  }

  lemma DecisionsValid(d: OutboxDocument, kind: EventKind)
    requires EventKindFromText(d.eventType) == Some(kind) && (kind.RejectedKind? || kind.CancelledKind? || kind.ExpiredKind?)
    ensures ValidPayload(kind, d.payload) <==> EventOf(d).Some? && Sound(EventOf(d).value)
  {
    assert Required(d.payload, ResourceId).Some? ==> d.payload.Object?;
    hide EventKindFromText, RequiredInterval, RequiredStatus, RequiredKind, Required;
  }

  // ----- Document and JSON -----

  function OutboxStatusText(status: OutboxStatus): string {
    match status
    case Pending => "PENDING"
    case Publishing => "PUBLISHING"
    case Published => "PUBLISHED"
  }

  function OutboxStatusFromText(text: string): Option<OutboxStatus> {
    if text == "PENDING" then Some(Pending)
    else if text == "PUBLISHING" then Some(Publishing)
    else if text == "PUBLISHED" then Some(Published)
    else None
  }

  lemma OutboxStatusTexts(status: OutboxStatus)
    ensures OutboxStatusFromText(OutboxStatusText(status)) == Some(status)
  {
    assert |OutboxStatusText(Pending)| == 7 && |OutboxStatusText(Publishing)| == 10 && |OutboxStatusText(Published)| == 9;
  }

  function HeaderJson(d: OutboxDocument, occurredAt: string): map<Name, Json>
    requires d.attemptCount < UINT64_LIMIT
  {
    map[DocumentType := Text("outbox"), SchemaVersion := Number(d.schemaVersion), EventId := Text(d.eventId),
        OrganizationId := Text(d.organizationId), AggregateId := Text(d.aggregateId),
        AggregateType := Text(d.aggregateType), Name.EventType := Text(d.eventType), OccurredAt := Text(occurredAt),
        StatusName := Text(OutboxStatusText(d.status)), AttemptCount := Number(d.attemptCount), Payload := d.payload]
  }

  /** `outbox_document_to_json`; attempt counts have 32 bits. */
  function ToJson(d: OutboxDocument): Option<Json>
    requires d.attemptCount < 0x1_0000_0000
  {
    if !d.Valid() then None else
    var occurredAt :- TimeText(d.occurredAt);
    var json := HeaderJson(d, occurredAt);
    if d.publishedAt == None then Some(Object(json)) else
    var publishedAt :- TimeText(d.publishedAt.value);
    Some(Object(json[PublishedAt := Text(publishedAt)]))
  }

  function OptionalTime(json: Json, name: Name): Option<Option<Instant>> {
    var text :- json.OptionalText(name);
    if text == None then Some(None) else
    var t :- TimeValue(text.value);
    Some(Some(t))
  }

  /** `outbox_document_from_json`. */
  function FromJson(json: Json): Option<OutboxDocument> {
    var documentType :- json.TextAt(DocumentType);
    if documentType != "outbox" then None else
    var attemptCount :- json.NumberAt(AttemptCount);
    if attemptCount > 0xFFFF_FFFF then None else
    var schemaVersion :- json.NumberAt(SchemaVersion);
    var eventId :- Required(json, EventId);
    var organizationId :- Required(json, OrganizationId);
    var aggregateId :- Required(json, AggregateId);
    var aggregateType :- json.TextAt(AggregateType);
    var eventType :- json.TextAt(Name.EventType);
    var occurredText :- json.TextAt(OccurredAt);
    var occurredAt :- TimeValue(occurredText);
    var statusText :- json.TextAt(StatusName);
    var status :- OutboxStatusFromText(statusText);
    if !json.Has(Payload) then None else
    var publishedAt :- OptionalTime(json, PublishedAt);
    var document := OutboxDocument(schemaVersion, eventId, organizationId, aggregateId, aggregateType, eventType, occurredAt,
                                   status, attemptCount, json.members[Payload], publishedAt);
    if document.Valid() then Some(document) else None
  }

  predicate ExtendsHeader(json: Json, d: OutboxDocument, occurredAt: string)
    requires d.attemptCount < UINT64_LIMIT
  {
    json.Object? && forall name :: name in HeaderJson(d, occurredAt) ==>
      name in json.members && json.members[name] == HeaderJson(d, occurredAt)[name]
  }

  lemma HeaderRead(d: OutboxDocument, occurredAt: string, json: Json)
    requires d.attemptCount < UINT64_LIMIT && ExtendsHeader(json, d, occurredAt)
    ensures json.TextAt(DocumentType) == Some("outbox") && json.NumberAt(SchemaVersion) == Some(d.schemaVersion)
    ensures Required(json, EventId) == Some(d.eventId) && Required(json, OrganizationId) == Some(d.organizationId)
    ensures Required(json, AggregateId) == Some(d.aggregateId) && json.TextAt(AggregateType) == Some(d.aggregateType)
  {
    hide OutboxStatusText;
    var header := HeaderJson(d, occurredAt);
    assert header[DocumentType] == Text("outbox") && header[SchemaVersion] == Number(d.schemaVersion);
    assert header[EventId] == Text(d.eventId) && header[OrganizationId] == Text(d.organizationId);
    assert header[AggregateId] == Text(d.aggregateId) && header[AggregateType] == Text(d.aggregateType);
  }

  lemma StateRead(d: OutboxDocument, occurredAt: string, json: Json)
    requires d.attemptCount < UINT64_LIMIT && ExtendsHeader(json, d, occurredAt)
    ensures json.TextAt(Name.EventType) == Some(d.eventType) && json.TextAt(OccurredAt) == Some(occurredAt)
    ensures json.TextAt(StatusName) == Some(OutboxStatusText(d.status)) && json.NumberAt(AttemptCount) == Some(d.attemptCount)
    ensures json.Has(Payload) && json.members[Payload] == d.payload
  {
    hide OutboxStatusText;
    var header := HeaderJson(d, occurredAt);
    assert header[Name.EventType] == Text(d.eventType) && header[OccurredAt] == Text(occurredAt);
    assert header[StatusName] == Text(OutboxStatusText(d.status)) && header[AttemptCount] == Number(d.attemptCount);
    assert header[Payload] == d.payload;
  }

  lemma PublishedRead(d: OutboxDocument, json: Json)
    requires d.attemptCount < 0x1_0000_0000 && ToJson(d) == Some(json)
    ensures TimeText(d.occurredAt).Some? && ExtendsHeader(json, d, TimeText(d.occurredAt).value)
    ensures OptionalTime(json, PublishedAt) == Some(d.publishedAt)
  {
    hide OutboxDocument.Valid, TimeText, TimeValue, Printable, OutboxStatusText;
    if d.publishedAt.Some? { TimeTextRoundTrip(d.publishedAt.value); }
  }

  /** A valid document can be written exactly if its times can be printed, and reading it gives it back. */
  lemma JsonRoundTrip(d: OutboxDocument)
    requires d.attemptCount < 0x1_0000_0000 && d.Valid()
    ensures ToJson(d).Some? <==> Printable(d.occurredAt) && (d.publishedAt.Some? ==> Printable(d.publishedAt.value))
    ensures ToJson(d).Some? ==> FromJson(ToJson(d).value) == Some(d)
  {
    hide OutboxDocument.Valid, TimeText, TimeValue, Printable, HeaderJson, ExtendsHeader, OutboxStatusText,
         OutboxStatusFromText, Json.TextAt, Json.NumberAt, Required, OptionalTime;
    TimeTextRoundTrip(d.occurredAt);
    if d.publishedAt.Some? { TimeTextRoundTrip(d.publishedAt.value); }
    if ToJson(d).Some? {
      var json := ToJson(d).value;
      PublishedRead(d, json);
      HeaderRead(d, TimeText(d.occurredAt).value, json);
      StateRead(d, TimeText(d.occurredAt).value, json);
      OutboxStatusTexts(d.status);
    }
  }

  predicate OutboxStatusAt(json: Json, name: Name, status: OutboxStatus) {
    json.TextAt(name) == Some(
      match status
      case Pending => "PENDING"
      case Publishing => "PUBLISHING"
      case Published => "PUBLISHED")
  }

  /** Each field of a document under the member of its name; no time of publication before there is one. */
  predicate Members(json: Json, d: OutboxDocument) {
    && json.TextAt(DocumentType) == Some("outbox") && json.NumberAt(SchemaVersion) == Some(d.schemaVersion)
    && json.TextAt(EventId) == Some(d.eventId) && json.TextAt(OrganizationId) == Some(d.organizationId)
    && json.TextAt(AggregateId) == Some(d.aggregateId) && json.TextAt(AggregateType) == Some(d.aggregateType)
    && json.TextAt(Name.EventType) == Some(d.eventType) && TimeAt(json, OccurredAt, d.occurredAt)
    && OutboxStatusAt(json, StatusName, d.status) && json.NumberAt(AttemptCount) == Some(d.attemptCount)
    && json.Has(Payload) && json.members[Payload] == d.payload
    && (json.Has(PublishedAt) <==> d.publishedAt.Some?)
    && (d.publishedAt.Some? ==> TimeAt(json, PublishedAt, d.publishedAt.value))
  }

  lemma OutboxStatusExactly(json: Json, name: Name, status: OutboxStatus)
    ensures OutboxStatusAt(json, name, status) <==>
      json.TextAt(name).Some? && OutboxStatusFromText(json.TextAt(name).value) == Some(status)
  {
    hide Json.TextAt;
    OutboxStatusTexts(status);
  }

  lemma OptionalTimeExactly(json: Json, name: Name, t: Option<Instant>)
    ensures OptionalTime(json, name) == Some(t) <==>
      (json.Has(name) <==> t.Some?) && (t.Some? ==> TimeAt(json, name, t.value))
  {
    hide TimeValue;
  }

  /** Writing puts each field under its member, and reading takes exactly the valid document whose fields are there. */
  lemma JsonMembers(json: Json, d: OutboxDocument)
    requires d.attemptCount < 0x1_0000_0000
    ensures ToJson(d) == Some(json) ==> Members(json, d)
    ensures FromJson(json) == Some(d) <==> d.Valid() && Members(json, d)
  {
    MembersRead(json, d);
    hide OutboxDocument.Valid, HeaderJson, FromJson, Members, TimeText;
    if d.Valid() { JsonRoundTrip(d); }
  }

  lemma MembersRead(json: Json, d: OutboxDocument)
    ensures FromJson(json) == Some(d) <==> d.attemptCount < 0x1_0000_0000 && d.Valid() && Members(json, d)
  {
    hide OutboxDocument.Valid, Json.TextAt, Json.NumberAt, Json.Has, TimeValue, OptionalTime, OutboxStatusFromText,
         OutboxStatusAt, Required;
    TextExactly(json, EventId, d.eventId);
    TextExactly(json, OrganizationId, d.organizationId);
    TextExactly(json, AggregateId, d.aggregateId);
    OutboxStatusExactly(json, StatusName, d.status);
    OptionalTimeExactly(json, PublishedAt, d.publishedAt);
  }
}
