/**
 The idempotency document: a record as text, its validation, and its JSON form. The fingerprint
 of a document is the 64-digit hexadecimal SHA-256 text, here any text of that shape.
 */
module IdempotencyDocuments {
  import opened Wrappers
  import opened Timestamp
  import opened Domain
  import opened Encoding
  import opened Idempotency
  import opened CreationInvariant
  import World
  import opened SystemTheorems
  import SystemInvariant
  import History = ReservationHistory
  import Books = OutboxInvariant
  import opened Documents

  datatype ResultDocument = ResultDocument(
    creationStatus: string, organizationId: Option<string>, reservationId: Option<string>, resourceId: Option<string>,
    creatorId: Option<string>, intervalStart: Option<string>, intervalEnd: Option<string>, purpose: Option<string>,
    reservationStatus: Option<string>, reservationKind: Option<string>, initialVersion: Option<UInt64>,
    createdAt: Option<string>)
  {
    predicate AllSuccessFields() {
      && organizationId.Some? && reservationId.Some? && resourceId.Some? && creatorId.Some? && intervalStart.Some?
      && intervalEnd.Some? && purpose.Some? && reservationStatus.Some? && reservationKind.Some? && initialVersion.Some?
      && createdAt.Some?
    }

    predicate AnySuccessFields() {
      || organizationId.Some? || reservationId.Some? || resourceId.Some? || creatorId.Some? || intervalStart.Some?
      || intervalEnd.Some? || purpose.Some? || reservationStatus.Some? || reservationKind.Some? || initialVersion.Some?
      || createdAt.Some?
    }
  }

  datatype IdempotencyDocument = IdempotencyDocument(
    schemaVersion: UInt64, organizationId: string, creatorId: string, operation: string, idempotencyKey: string,
    fingerprint: string, status: string, reservationId: string, createdEventId: string, confirmedEventId: string,
    approvalRequestedEventId: string, createdAt: string, result: Option<ResultDocument>)
  {
    predicate ValidHeader() {
      && schemaVersion == 1 && organizationId != "" && creatorId != "" && idempotencyKey != "" && reservationId != ""
      && createdEventId != "" && confirmedEventId != "" && approvalRequestedEventId != ""
      && OperationFromText(operation).Some? && RecordStatusFromText(status).Some? && IsHash(fingerprint) && IsTime(createdAt)
    }

    predicate ValidSuccess(r: ResultDocument) {
      && SuccessfulStatus(r.creationStatus) && r.AllSuccessFields()
      && r.organizationId.value == organizationId && r.reservationId.value == reservationId
      && r.creatorId.value == creatorId && r.initialVersion.value != 0
      && StatusFromText(r.reservationStatus.value).Some? && KindFromText(r.reservationKind.value).Some?
      && IsTime(r.createdAt.value) && IsTime(r.intervalStart.value) && IsTime(r.intervalEnd.value)
      && TimeValue(r.intervalStart.value).value < TimeValue(r.intervalEnd.value).value && r.createdAt.value == createdAt
    }

    predicate ValidRejection(r: ResultDocument) {
      RejectionStatus(r.creationStatus) && !r.AnySuccessFields()
    }

    /** `validate_idempotency_document`. */
    predicate Valid() {
      ValidHeader() &&
      match RecordStatusFromText(status).value
      case Processing => result == None
      case Succeeded => result.Some? && ValidSuccess(result.value)
      case FailedPermanent => result.Some? && ValidRejection(result.value)
    }
  }

  predicate SuccessfulStatus(text: string) {
    text == "CREATED_CONFIRMED" || text == "CREATED_PENDING_APPROVAL"
  }

  predicate RejectionStatus(text: string) {
    || text == "RESOURCE_NOT_FOUND" || text == "RESOURCE_INACTIVE" || text == "SCHEDULE_CONFLICT"
    || text == "POLICY_REJECTED"
  }

  predicate IsHash(text: string) {
    |text| == 64 && forall i :: 0 <= i < 64 ==> '0' <= text[i] <= '9' || 'a' <= text[i] <= 'f'
  }

  function RecordStatusText(status: RecordStatus): string {
    match status
    case Processing => "PROCESSING"
    case Succeeded => "SUCCEEDED"
    case FailedPermanent => "FAILED_PERMANENT"
  }

  function RecordStatusFromText(text: string): Option<RecordStatus> {
    if text == "PROCESSING" then Some(Processing)
    else if text == "SUCCEEDED" then Some(Succeeded)
    else if text == "FAILED_PERMANENT" then Some(FailedPermanent)
    else None
  }

  function CreateStatusText(status: CreateStatus): Option<string> {
    match status
    case CreatedConfirmed => Some("CREATED_CONFIRMED")
    case CreatedPendingApproval => Some("CREATED_PENDING_APPROVAL")
    case ResourceNotFound => Some("RESOURCE_NOT_FOUND")
    case ResourceUnavailable => Some("RESOURCE_INACTIVE")
    case ScheduleConflict => Some("SCHEDULE_CONFLICT")
    case PolicyRejected => Some("POLICY_REJECTED")
    case IdempotencyConflict => None
    case IdempotencyInProgress => None
  }

  function CreateStatusFromText(text: string): Option<CreateStatus> {
    if text == "CREATED_CONFIRMED" then Some(CreatedConfirmed)
    else if text == "CREATED_PENDING_APPROVAL" then Some(CreatedPendingApproval)
    else if text == "RESOURCE_NOT_FOUND" then Some(ResourceNotFound)
    else if text == "RESOURCE_INACTIVE" then Some(ResourceUnavailable)
    else if text == "SCHEDULE_CONFLICT" then Some(ScheduleConflict)
    else if text == "POLICY_REJECTED" then Some(PolicyRejected)
    else None
  }

  // ----- Record and document -----

  /** `to_result_document`. */
  function ResultToDocument(s: Snapshot): Option<ResultDocument> {
    var status :- CreateStatusText(s.status);
    match s
    case RejectionSnapshot(_) =>
      Some(ResultDocument(status, None, None, None, None, None, None, None, None, None, None, None))
    case SuccessSnapshot(_, org, id, resource, creator, interval, purpose, reservationStatus, kind, version, createdAt) =>
      var start :- TimeText(interval.start);
      var end :- TimeText(interval.end);
      var at :- TimeText(createdAt);
      Some(ResultDocument(status, Some(org), Some(id), Some(resource), Some(creator), Some(start), Some(end), Some(purpose),
                          Some(StatusText(reservationStatus)), Some(KindText(kind)), Some(version), Some(at)))
  }

  /** `to_snapshot` on a result that passed validation. */
  function SnapshotFromDocument(r: ResultDocument): Option<Snapshot>
    requires r.reservationId.Some? ==> r.AllSuccessFields()
  {
    var status :- CreateStatusFromText(r.creationStatus);
    if r.reservationId == None then
      var s := RejectionSnapshot(status);
      if ValidSnapshot(s) then Some(s) else None
    else if r.organizationId.value == "" || r.reservationId.value == "" || r.resourceId.value == "" || r.creatorId.value == ""
    then None
    else
      var start :- TimeValue(r.intervalStart.value);
      var end :- TimeValue(r.intervalEnd.value);
      var reservationStatus :- StatusFromText(r.reservationStatus.value);
      var kind :- KindFromText(r.reservationKind.value);
      var at :- TimeValue(r.createdAt.value);
      if start >= end then None else
      var s := SuccessSnapshot(status, r.organizationId.value, r.reservationId.value, r.resourceId.value, r.creatorId.value,
                               TimeInterval(start, end), r.purpose.value, reservationStatus, kind, r.initialVersion.value, at);
      if ValidSnapshot(s) then Some(s) else None
  }

  function DocumentOf(r: Record, at: string, result: Option<ResultDocument>): IdempotencyDocument {
    IdempotencyDocument(1, r.scope.org, r.scope.creator, OperationText(r.scope.operation), r.scope.key,
                        r.fingerprint, RecordStatusText(r.status), r.ids.reservation, r.ids.createdEvent,
                        r.ids.confirmedEvent, r.ids.approvalEvent, at, result)
  }

  /** `to_idempotency_document`. */
  function ToDocument(r: Record): Option<IdempotencyDocument> {
    var at :- TimeText(r.createdAt);
    var result :- if r.result == None then Some(None) else WrapResult(ResultToDocument(r.result.value));
    var document := DocumentOf(r, at, result);
    if document.Valid() then Some(document) else None
  }

  function WrapResult(r: Option<ResultDocument>): Option<Option<ResultDocument>> {
    if r == None then None else Some(r)
  }

  /** `to_idempotency_record`, with the checks of the record factories. */
  function FromDocument(d: IdempotencyDocument): Option<Record> {
    if !d.Valid() then None else
    var scope := Scope(d.organizationId, d.creatorId, OperationFromText(d.operation).value, d.idempotencyKey);
    var ids := Identifiers(d.reservationId, d.createdEventId, d.confirmedEventId, d.approvalRequestedEventId);
    var record := Record(scope, d.fingerprint, ids, TimeValue(d.createdAt).value, RecordStatusFromText(d.status).value, None);
    if record.status.Processing? then Some(record)
    else
      var snapshot :- SnapshotFromDocument(d.result.value);
      var record := record.(result := Some(snapshot));
      if WellFormed(record) then Some(record) else None
  }

  /** What the record factories and the snapshot factories check. */
  predicate WellFormed(r: Record) {
    match r.status
    case Processing => r.result == None
    case Succeeded =>
      && r.result.Some? && r.result.value.SuccessSnapshot? && ValidSnapshot(r.result.value)
      && r.result.value.id == r.ids.reservation && r.result.value.createdAt == r.createdAt
    case FailedPermanent => r.result.Some? && r.result.value.RejectionSnapshot? && ValidSnapshot(r.result.value)
  }

  /** The record can be written: a hash of the right shape, printable times, and a result of the record's own scope. */
  predicate Storable(r: Record) {
    && IsHash(r.fingerprint) && Printable(r.createdAt)
    && (r.status.Succeeded? && r.result.Some? && r.result.value.SuccessSnapshot? ==>
        && Printable(r.result.value.interval.start) && Printable(r.result.value.interval.end)
        && r.result.value.org == r.scope.org && r.result.value.creator == r.scope.creator)
  }

  lemma RecordStatusTexts(status: RecordStatus)
    ensures RecordStatusFromText(RecordStatusText(status)) == Some(status)
  {
    assert |RecordStatusText(Processing)| == 10 && |RecordStatusText(Succeeded)| == 9;
    assert |RecordStatusText(FailedPermanent)| == 16;
  }

  lemma CreateStatusTexts(status: CreateStatus)
    requires CreateStatusText(status).Some?
    ensures CreateStatusFromText(CreateStatusText(status).value) == Some(status)
    ensures IsPermanentRejection(status) ==> RejectionStatus(CreateStatusText(status).value)
    ensures !IsPermanentRejection(status) ==> SuccessfulStatus(CreateStatusText(status).value)
  {
    assert |CreateStatusText(CreatedConfirmed).value| == |CreateStatusText(ScheduleConflict).value| == 17;
    assert |CreateStatusText(ResourceUnavailable).value| == 17;
    assert CreateStatusText(CreatedConfirmed).value[0] == 'C' && CreateStatusText(ScheduleConflict).value[0] == 'S';
    assert CreateStatusText(ResourceUnavailable).value[0] == 'R';
    assert |CreateStatusText(CreatedPendingApproval).value| == 24;
    assert |CreateStatusText(ResourceNotFound).value| == 18 && |CreateStatusText(PolicyRejected).value| == 15;
  }

  lemma CreateStatusDefined(status: CreateStatus)
    ensures CreateStatusText(status).Some? <==> !status.IdempotencyConflict? && !status.IdempotencyInProgress?
  {
  }

  lemma RejectionRoundTrip(s: Snapshot)
    requires s.RejectionSnapshot? && ValidSnapshot(s)
    ensures ResultToDocument(s).Some?
    ensures var d := ResultToDocument(s).value;
      !d.AnySuccessFields() && SnapshotFromDocument(d) == Some(s) && RejectionStatus(d.creationStatus)
  {
    hide CreateStatusFromText, CreateStatusText, RejectionStatus, SuccessfulStatus;
    CreateStatusDefined(s.status);
    CreateStatusTexts(s.status);
  }

  /** The document of a successful result keeps each field under its own name. */
  lemma SuccessFields(s: Snapshot)
    requires s.SuccessSnapshot? && ValidSnapshot(s)
    ensures ResultToDocument(s).Some? <==>
      Printable(s.interval.start) && Printable(s.interval.end) && Printable(s.createdAt)
    ensures ResultToDocument(s).Some? ==> var d := ResultToDocument(s).value;
      && d.AllSuccessFields() && SuccessfulStatus(d.creationStatus) && d.creationStatus == CreateStatusText(s.status).value
      && d.organizationId.value == s.org && d.reservationId.value == s.id && d.resourceId.value == s.resource
      && d.creatorId.value == s.creator && d.purpose.value == s.purpose && d.initialVersion.value == s.version
      && d.reservationStatus.value == StatusText(s.reservationStatus) && d.reservationKind.value == KindText(s.kind)
      && TimeText(s.createdAt) == Some(d.createdAt.value) && TimeValue(d.createdAt.value) == Some(s.createdAt)
      && TimeValue(d.intervalStart.value) == Some(s.interval.start) && TimeValue(d.intervalEnd.value) == Some(s.interval.end)
  {
    hide CreateStatusText, CreateStatusFromText, RejectionStatus, SuccessfulStatus, StatusText, KindText, TimeText,
         TimeValue, Printable;
    CreateStatusDefined(s.status);
    CreateStatusTexts(s.status);
    TimeTextRoundTrip(s.interval.start);
    TimeTextRoundTrip(s.interval.end);
    TimeTextRoundTrip(s.createdAt);
  }

  lemma SuccessRoundTrip(s: Snapshot)
    requires s.SuccessSnapshot? && ValidSnapshot(s) && ResultToDocument(s).Some?
    ensures ResultToDocument(s).value.AllSuccessFields()
    ensures SnapshotFromDocument(ResultToDocument(s).value) == Some(s)
  {
    hide ResultToDocument, CreateStatusText, CreateStatusFromText, RejectionStatus, SuccessfulStatus, StatusText,
         StatusFromText, KindText, KindFromText, TimeText, TimeValue, Printable;
    SuccessFields(s);
    CreateStatusDefined(s.status);
    CreateStatusTexts(s.status);
    StatusTexts(s.reservationStatus);
    KindTexts(s.kind);
  }

  /** The header of a document comes from the record's own fields. */
  lemma HeaderValid(r: Record, d: IdempotencyDocument)
    requires IsHash(r.fingerprint) && Printable(r.createdAt)
    requires d.schemaVersion == 1 && d.organizationId == r.scope.org && d.creatorId == r.scope.creator
    requires d.operation == OperationText(r.scope.operation) && d.idempotencyKey == r.scope.key
    requires d.fingerprint == r.fingerprint && d.status == RecordStatusText(r.status)
    requires d.reservationId == r.ids.reservation && d.createdEventId == r.ids.createdEvent
    requires d.confirmedEventId == r.ids.confirmedEvent && d.approvalRequestedEventId == r.ids.approvalEvent
    requires Some(d.createdAt) == TimeText(r.createdAt)
    ensures d.ValidHeader() && RecordStatusFromText(d.status) == Some(r.status)
    ensures OperationFromText(d.operation) == Some(r.scope.operation) && TimeValue(d.createdAt) == Some(r.createdAt)
  {
    hide IsHash, Printable, OperationText, OperationFromText, RecordStatusText, RecordStatusFromText, TimeText, TimeValue;
    TimeTextRoundTrip(r.createdAt);
    RecordStatusTexts(r.status);
    OperationTexts(r.scope.operation);
  }

  /** The document of a successful record is valid exactly if its result belongs to the record's scope. */
  lemma SuccessValid(r: Record)
    requires r.status.Succeeded? && WellFormed(r) && Printable(r.createdAt) && IsHash(r.fingerprint)
    ensures ToDocument(r).Some? <==> Storable(r)
    ensures Storable(r) ==> FromDocument(ToDocument(r).value) == Some(r)
  {
    hide ResultToDocument, SnapshotFromDocument, TimeText, TimeValue, Printable, IsHash, RecordStatusText,
         RecordStatusFromText, OperationText, OperationFromText, StatusText, StatusFromText, KindText, KindFromText,
         CreateStatusText, SuccessfulStatus, RejectionStatus, IdempotencyDocument.ValidHeader;
    var s := r.result.value;
    TimeTextRoundTrip(r.createdAt);
    SuccessFields(s);
    if ResultToDocument(s).Some? {
      SuccessRoundTrip(s);
      StatusTexts(s.reservationStatus);
      KindTexts(s.kind);
      HeaderValid(r, DocumentOf(r, TimeText(r.createdAt).value, ResultToDocument(s)));
    }
  }

  lemma FailureValid(r: Record)
    requires r.status.FailedPermanent? && WellFormed(r) && Printable(r.createdAt) && IsHash(r.fingerprint)
    ensures ToDocument(r).Some? && FromDocument(ToDocument(r).value) == Some(r)
  {
    hide ResultToDocument, SnapshotFromDocument, TimeText, TimeValue, Printable, IsHash, RecordStatusText,
         RecordStatusFromText, OperationText, OperationFromText, CreateStatusText, SuccessfulStatus, RejectionStatus,
         IdempotencyDocument.ValidHeader, IdempotencyDocument.ValidSuccess;
    TimeTextRoundTrip(r.createdAt);
    RejectionRoundTrip(r.result.value);
    HeaderValid(r, DocumentOf(r, TimeText(r.createdAt).value, ResultToDocument(r.result.value)));
  }

  lemma ProcessingValid(r: Record)
    requires r.status.Processing? && WellFormed(r) && Printable(r.createdAt) && IsHash(r.fingerprint)
    ensures ToDocument(r).Some? && FromDocument(ToDocument(r).value) == Some(r)
  {
    hide TimeText, TimeValue, Printable, IsHash, RecordStatusText, RecordStatusFromText, OperationText, OperationFromText,
         IdempotencyDocument.ValidHeader, IdempotencyDocument.ValidSuccess, IdempotencyDocument.ValidRejection;
    TimeTextRoundTrip(r.createdAt);
    HeaderValid(r, DocumentOf(r, TimeText(r.createdAt).value, None));
  }

  lemma WrittenHeader(r: Record)
    requires ToDocument(r).Some?
    ensures Printable(r.createdAt) && IsHash(r.fingerprint)
  {
    hide TimeValue, Printable, ResultToDocument, IsHash, OperationText, OperationFromText, RecordStatusText,
         RecordStatusFromText, IdempotencyDocument.ValidSuccess, IdempotencyDocument.ValidRejection;
    TimeTextRoundTrip(r.createdAt);
  }

  /** A well-formed record can be written exactly if it is storable, and reading it back gives it back. */
  lemma DocumentRoundTrip(r: Record)
    requires WellFormed(r)
    ensures ToDocument(r).Some? <==> Storable(r)
    ensures Storable(r) ==> FromDocument(ToDocument(r).value) == Some(r)
  {
    hide ToDocument, FromDocument, Printable, IsHash, ValidSnapshot;
    if ToDocument(r).Some? { WrittenHeader(r); }
    if Printable(r.createdAt) && IsHash(r.fingerprint) {
      match r.status
      case Processing => ProcessingValid(r);
      case Succeeded => SuccessValid(r);
      case FailedPermanent => FailureValid(r);
    }
  }

  // ----- What a document says -----

  /** The texts of the enumerations. */
  lemma RecordTexts()
    ensures RecordStatusText(Processing) == "PROCESSING" && RecordStatusText(Succeeded) == "SUCCEEDED"
    ensures RecordStatusText(FailedPermanent) == "FAILED_PERMANENT"
    ensures CreateStatusText(CreatedConfirmed) == Some("CREATED_CONFIRMED")
    ensures CreateStatusText(CreatedPendingApproval) == Some("CREATED_PENDING_APPROVAL")
    ensures CreateStatusText(ResourceNotFound) == Some("RESOURCE_NOT_FOUND")
    ensures CreateStatusText(ResourceUnavailable) == Some("RESOURCE_INACTIVE")
    ensures CreateStatusText(ScheduleConflict) == Some("SCHEDULE_CONFLICT")
    ensures CreateStatusText(PolicyRejected) == Some("POLICY_REJECTED")
  {
  }

  /** The document of a record keeps each field under its own name; a rejection has no more than its status. */
  lemma DocumentFields(r: Record)
    requires WellFormed(r) && ToDocument(r).Some?
    ensures var d := ToDocument(r).value;
      && d.schemaVersion == 1 && d.organizationId == r.scope.org && d.creatorId == r.scope.creator
      && d.operation == OperationText(r.scope.operation) && d.idempotencyKey == r.scope.key
      && d.fingerprint == r.fingerprint && d.status == RecordStatusText(r.status)
      && d.reservationId == r.ids.reservation && d.createdEventId == r.ids.createdEvent
      && d.confirmedEventId == r.ids.confirmedEvent && d.approvalRequestedEventId == r.ids.approvalEvent
      && TimeText(r.createdAt) == Some(d.createdAt) && (d.result.Some? <==> !r.status.Processing?)
      && (r.status.FailedPermanent? ==>
            !d.result.value.AnySuccessFields() && CreateStatusText(r.result.value.status) == Some(d.result.value.creationStatus))
      && (r.status.Succeeded? ==> d.result == ResultToDocument(r.result.value))
  {
    hide IdempotencyDocument.Valid, TimeText, CreateStatusText, OperationText, RecordStatusText, StatusText, KindText;
  }

  lemma RecordStatusReadBack(text: string)
    requires RecordStatusFromText(text).Some?
    ensures RecordStatusText(RecordStatusFromText(text).value) == text
  {
  }

  lemma CreateStatusReadBack(text: string)
    requires CreateStatusFromText(text).Some?
    ensures CreateStatusText(CreateStatusFromText(text).value) == Some(text)
  {
  }

  lemma OperationReadBack(text: string)
    requires OperationFromText(text).Some?
    ensures OperationText(OperationFromText(text).value) == text
  {
  }

  /** Every time of the document is in the printer's form. */
  predicate PrintedTimes(d: IdempotencyDocument) {
    && IsPrinted(d.createdAt)
    && (d.result.Some? && d.result.value.AllSuccessFields() ==>
          && IsPrinted(d.result.value.createdAt.value)
          && IsPrinted(d.result.value.intervalStart.value) && IsPrinted(d.result.value.intervalEnd.value))
  }

  lemma ResultReadBack(r: ResultDocument)
    requires (r.AllSuccessFields() || !r.AnySuccessFields()) && SnapshotFromDocument(r).Some?
    ensures ResultToDocument(SnapshotFromDocument(r).value) == Some(r) <==>
      (r.AllSuccessFields() ==>
         IsPrinted(r.createdAt.value) && IsPrinted(r.intervalStart.value) && IsPrinted(r.intervalEnd.value))
  {
    hide TimeText, TimeValue, StatusText, StatusFromText, KindText, KindFromText, CreateStatusText, CreateStatusFromText;
    CreateStatusReadBack(r.creationStatus);
    if r.AllSuccessFields() {
      StatusReadBack(r.reservationStatus.value);
      KindReadBack(r.reservationKind.value);
    }
  }

  /** An accepted document is what the repository would write for the record it stands for, if and only if its times are printed. */
  lemma DocumentReadBack(d: IdempotencyDocument)
    requires FromDocument(d).Some?
    ensures ToDocument(FromDocument(d).value) == Some(d) <==> PrintedTimes(d)
  {
    hide TimeText, TimeValue, RecordStatusText, RecordStatusFromText, OperationText, OperationFromText,
         ResultToDocument, SnapshotFromDocument, SuccessfulStatus, RejectionStatus, IsHash;
    RecordStatusReadBack(d.status);
    OperationReadBack(d.operation);
    if d.result.Some? { ResultReadBack(d.result.value); }
  }

  /** An accepted success repeats the identity and the time of its record, letter by letter. */
  lemma AcceptedSuccess(d: IdempotencyDocument)
    requires FromDocument(d).Some? && FromDocument(d).value.status.Succeeded?
    ensures d.result.Some? && d.result.value.AllSuccessFields()
    ensures var r := d.result.value;
      && r.organizationId.value == d.organizationId && r.creatorId.value == d.creatorId
      && r.reservationId.value == d.reservationId && r.createdAt.value == d.createdAt
  {
    hide TimeValue, OperationFromText, RecordStatusFromText, SnapshotFromDocument, SuccessfulStatus, RejectionStatus, IsHash;
  }

  // ----- Document and JSON -----

  function OwnerMembers(r: ResultDocument): map<Name, Json> {
    var members := map[CreationStatus := Text(r.creationStatus)];
    var members := WithText(members, OrganizationId, r.organizationId);
    var members := WithText(members, ReservationId, r.reservationId);
    var members := WithText(members, ResourceId, r.resourceId);
    WithText(members, CreatorId, r.creatorId)
  }

  function IntervalMembers(members: map<Name, Json>, r: ResultDocument): map<Name, Json> {
    var members := WithText(members, IntervalStart, r.intervalStart);
    var members := WithText(members, IntervalEnd, r.intervalEnd);
    WithText(members, Purpose, r.purpose)
  }

  function StateMembers(members: map<Name, Json>, r: ResultDocument): map<Name, Json> {
    var members := WithText(members, ReservationStatus, r.reservationStatus);
    var members := WithText(members, ReservationKind, r.reservationKind);
    var members := WithNumber(members, InitialVersion, r.initialVersion);
    WithText(members, CreatedAt, r.createdAt)
  }

  function ResultJson(r: ResultDocument): Json {
    Object(StateMembers(IntervalMembers(OwnerMembers(r), r), r))
  }

  function ResultFromJson(json: Json): Option<ResultDocument> {
    var creationStatus :- json.TextAt(CreationStatus);
    var organizationId :- json.OptionalText(OrganizationId);
    var reservationId :- json.OptionalText(ReservationId);
    var resourceId :- json.OptionalText(ResourceId);
    var creatorId :- json.OptionalText(CreatorId);
    var intervalStart :- json.OptionalText(IntervalStart);
    var intervalEnd :- json.OptionalText(IntervalEnd);
    var purpose :- json.OptionalText(Purpose);
    var reservationStatus :- json.OptionalText(ReservationStatus);
    var reservationKind :- json.OptionalText(ReservationKind);
    var initialVersion :- json.OptionalNumber(InitialVersion);
    var createdAt :- json.OptionalText(CreatedAt);
    Some(ResultDocument(creationStatus, organizationId, reservationId, resourceId, creatorId, intervalStart, intervalEnd,
                        purpose, reservationStatus, reservationKind, initialVersion, createdAt))
  }

  function HeaderJson(d: IdempotencyDocument): map<Name, Json> {
    map[DocumentType := Text("idempotency"), SchemaVersion := Number(d.schemaVersion),
        OrganizationId := Text(d.organizationId), CreatorId := Text(d.creatorId), OperationName := Text(d.operation),
        IdempotencyKey := Text(d.idempotencyKey), Fingerprint := Text(d.fingerprint), StatusName := Text(d.status),
        ReservationId := Text(d.reservationId), CreatedEventId := Text(d.createdEventId),
        ConfirmedEventId := Text(d.confirmedEventId), ApprovalRequestedEventId := Text(d.approvalRequestedEventId),
        CreatedAt := Text(d.createdAt)]
  }

  /** `idempotency_document_to_json`. */
  function ToJson(d: IdempotencyDocument): Option<Json> {
    if !d.Valid() then None
    else if d.result.Some? then Some(Object(HeaderJson(d)[ResultName := ResultJson(d.result.value)]))
    else Some(Object(HeaderJson(d)))
  }

  function OptionalResult(json: Json): Option<Option<ResultDocument>> {
    if json.Has(ResultName) then WrapResult(ResultFromJson(json.members[ResultName])) else Some(None)
  }

  /** `idempotency_document_from_json`. */
  function FromJson(json: Json): Option<IdempotencyDocument> {
    var documentType :- json.TextAt(DocumentType);
    if documentType != "idempotency" then None else
    var schemaVersion :- json.NumberAt(SchemaVersion);
    var organizationId :- json.TextAt(OrganizationId);
    var creatorId :- json.TextAt(CreatorId);
    var operation :- json.TextAt(OperationName);
    var idempotencyKey :- json.TextAt(IdempotencyKey);
    var fingerprint :- json.TextAt(Fingerprint);
    var status :- json.TextAt(StatusName);
    var reservationId :- json.TextAt(ReservationId);
    var createdEventId :- json.TextAt(CreatedEventId);
    var confirmedEventId :- json.TextAt(ConfirmedEventId);
    var approvalRequestedEventId :- json.TextAt(ApprovalRequestedEventId);
    var createdAt :- json.TextAt(CreatedAt);
    var result :- OptionalResult(json);
    var document := IdempotencyDocument(schemaVersion, organizationId, creatorId, operation, idempotencyKey, fingerprint,
                                        status, reservationId, createdEventId, confirmedEventId, approvalRequestedEventId,
                                        createdAt, result);
    if document.Valid() then Some(document) else None
  }

  lemma OwnerRead(r: ResultDocument)
    ensures var json := Object(OwnerMembers(r));
      && json.TextAt(CreationStatus) == Some(r.creationStatus)
      && json.OptionalText(OrganizationId) == Some(r.organizationId) && json.OptionalText(ReservationId) == Some(r.reservationId)
      && json.OptionalText(ResourceId) == Some(r.resourceId) && json.OptionalText(CreatorId) == Some(r.creatorId)
    ensures forall n :: n in OwnerMembers(r) ==> n in {CreationStatus, OrganizationId, ReservationId, ResourceId, CreatorId}
  {
  }

  predicate SameMember(a: map<Name, Json>, b: map<Name, Json>, n: Name) {
    (n in a <==> n in b) && (n in a ==> a[n] == b[n])
  }

  lemma IntervalRead(members: map<Name, Json>, r: ResultDocument)
    requires IntervalStart !in members && IntervalEnd !in members && Purpose !in members
    ensures var json := Object(IntervalMembers(members, r));
      && json.OptionalText(IntervalStart) == Some(r.intervalStart) && json.OptionalText(IntervalEnd) == Some(r.intervalEnd)
      && json.OptionalText(Purpose) == Some(r.purpose)
    ensures forall n :: n !in {IntervalStart, IntervalEnd, Purpose} ==> SameMember(members, IntervalMembers(members, r), n)
  {
  }

  lemma StateRead(members: map<Name, Json>, r: ResultDocument)
    requires ReservationStatus !in members && ReservationKind !in members && InitialVersion !in members && CreatedAt !in members
    ensures var json := Object(StateMembers(members, r));
      && json.OptionalText(ReservationStatus) == Some(r.reservationStatus)
      && json.OptionalText(ReservationKind) == Some(r.reservationKind)
      && json.OptionalNumber(InitialVersion) == Some(r.initialVersion) && json.OptionalText(CreatedAt) == Some(r.createdAt)
    ensures forall n :: n !in {ReservationStatus, ReservationKind, InitialVersion, CreatedAt} ==>
      SameMember(members, StateMembers(members, r), n)
  {
  }

  lemma ResultRoundTrip(r: ResultDocument)
    ensures ResultFromJson(ResultJson(r)) == Some(r)
  {
    hide OwnerMembers, IntervalMembers, StateMembers;
    var owner := OwnerMembers(r);
    var interval := IntervalMembers(owner, r);
    OwnerRead(r);
    IntervalRead(owner, r);
    assert SameMember(owner, interval, ReservationStatus) && SameMember(owner, interval, ReservationKind);
    assert SameMember(owner, interval, InitialVersion) && SameMember(owner, interval, CreatedAt);
    StateRead(interval, r);
    var state := StateMembers(interval, r);
    assert SameMember(owner, interval, CreationStatus) && SameMember(interval, state, CreationStatus);
    assert SameMember(owner, interval, OrganizationId) && SameMember(interval, state, OrganizationId);
    assert SameMember(owner, interval, ReservationId) && SameMember(interval, state, ReservationId);
    assert SameMember(owner, interval, ResourceId) && SameMember(interval, state, ResourceId);
    assert SameMember(owner, interval, CreatorId) && SameMember(interval, state, CreatorId);
    assert SameMember(interval, state, IntervalStart) && SameMember(interval, state, IntervalEnd);
    assert SameMember(interval, state, Purpose);
  }

  predicate ExtendsHeader(json: Json, d: IdempotencyDocument) {
    json.Object? && forall name :: name in HeaderJson(d) ==> name in json.members && json.members[name] == HeaderJson(d)[name]
  }

  lemma ScopeRead(d: IdempotencyDocument, json: Json)
    requires ExtendsHeader(json, d)
    ensures json.TextAt(DocumentType) == Some("idempotency") && json.NumberAt(SchemaVersion) == Some(d.schemaVersion)
    ensures json.TextAt(OrganizationId) == Some(d.organizationId) && json.TextAt(CreatorId) == Some(d.creatorId)
    ensures json.TextAt(OperationName) == Some(d.operation) && json.TextAt(IdempotencyKey) == Some(d.idempotencyKey)
    ensures json.TextAt(Fingerprint) == Some(d.fingerprint)
  {
    assert HeaderJson(d)[DocumentType] == Text("idempotency") && HeaderJson(d)[SchemaVersion] == Number(d.schemaVersion);
    assert HeaderJson(d)[OrganizationId] == Text(d.organizationId) && HeaderJson(d)[CreatorId] == Text(d.creatorId);
    assert HeaderJson(d)[OperationName] == Text(d.operation) && HeaderJson(d)[IdempotencyKey] == Text(d.idempotencyKey);
    assert HeaderJson(d)[Fingerprint] == Text(d.fingerprint);
  }

  lemma IdentifiersRead(d: IdempotencyDocument, json: Json)
    requires ExtendsHeader(json, d)
    ensures json.TextAt(StatusName) == Some(d.status) && json.TextAt(ReservationId) == Some(d.reservationId)
    ensures json.TextAt(CreatedEventId) == Some(d.createdEventId) && json.TextAt(ConfirmedEventId) == Some(d.confirmedEventId)
    ensures json.TextAt(ApprovalRequestedEventId) == Some(d.approvalRequestedEventId)
    ensures json.TextAt(CreatedAt) == Some(d.createdAt)
  {
    assert HeaderJson(d)[StatusName] == Text(d.status) && HeaderJson(d)[ReservationId] == Text(d.reservationId);
    assert HeaderJson(d)[CreatedEventId] == Text(d.createdEventId);
    assert HeaderJson(d)[ConfirmedEventId] == Text(d.confirmedEventId);
    assert HeaderJson(d)[ApprovalRequestedEventId] == Text(d.approvalRequestedEventId);
    assert HeaderJson(d)[CreatedAt] == Text(d.createdAt);
  }

  lemma HeaderKept(d: IdempotencyDocument)
    requires d.Valid()
    ensures ExtendsHeader(ToJson(d).value, d) && OptionalResult(ToJson(d).value) == Some(d.result)
  {
    hide IdempotencyDocument.Valid, ResultJson, ResultFromJson;
    if d.result.Some? { ResultRoundTrip(d.result.value); }
  }

  /** Reading the JSON form of a valid document gives the document back. */
  lemma JsonRoundTrip(d: IdempotencyDocument)
    requires d.Valid()
    ensures ToJson(d).Some? && FromJson(ToJson(d).value) == Some(d)
  {
    hide IdempotencyDocument.Valid, OptionalResult, ExtendsHeader, HeaderJson, ResultJson, Json.TextAt, Json.NumberAt;
    HeaderKept(d);
    ScopeRead(d, ToJson(d).value);
    IdentifiersRead(d, ToJson(d).value);
  }

  /** Each field of a result under the member of its name, and no member for a field without a value. */
  predicate ResultMembers(json: Json, r: ResultDocument) {
    && json.TextAt(CreationStatus) == Some(r.creationStatus)
    && json.OptionalText(OrganizationId) == Some(r.organizationId) && json.OptionalText(ReservationId) == Some(r.reservationId)
    && json.OptionalText(ResourceId) == Some(r.resourceId) && json.OptionalText(CreatorId) == Some(r.creatorId)
    && json.OptionalText(IntervalStart) == Some(r.intervalStart) && json.OptionalText(IntervalEnd) == Some(r.intervalEnd)
    && json.OptionalText(Purpose) == Some(r.purpose)
    && json.OptionalText(ReservationStatus) == Some(r.reservationStatus)
    && json.OptionalText(ReservationKind) == Some(r.reservationKind)
    && json.OptionalNumber(InitialVersion) == Some(r.initialVersion) && json.OptionalText(CreatedAt) == Some(r.createdAt)
  }

  /** Each field of a document under the member of its name. */
  predicate Members(json: Json, d: IdempotencyDocument) {
    && json.TextAt(DocumentType) == Some("idempotency") && json.NumberAt(SchemaVersion) == Some(d.schemaVersion)
    && json.TextAt(OrganizationId) == Some(d.organizationId) && json.TextAt(CreatorId) == Some(d.creatorId)
    && json.TextAt(OperationName) == Some(d.operation) && json.TextAt(IdempotencyKey) == Some(d.idempotencyKey)
    && json.TextAt(Fingerprint) == Some(d.fingerprint) && json.TextAt(StatusName) == Some(d.status)
    && json.TextAt(ReservationId) == Some(d.reservationId) && json.TextAt(CreatedEventId) == Some(d.createdEventId)
    && json.TextAt(ConfirmedEventId) == Some(d.confirmedEventId)
    && json.TextAt(ApprovalRequestedEventId) == Some(d.approvalRequestedEventId)
    && json.TextAt(CreatedAt) == Some(d.createdAt)
    && (json.Has(ResultName) <==> d.result.Some?)
    && (d.result.Some? ==> ResultMembers(json.members[ResultName], d.result.value))
  }

  lemma ResultRead(json: Json, r: ResultDocument)
    ensures ResultFromJson(json) == Some(r) <==> ResultMembers(json, r)
  {
    hide Json.TextAt, Json.OptionalText, Json.OptionalNumber;
  }

  lemma OptionalResultRead(json: Json, result: Option<ResultDocument>)
    ensures OptionalResult(json) == Some(result) <==>
      (json.Has(ResultName) <==> result.Some?) && (result.Some? ==> ResultMembers(json.members[ResultName], result.value))
  {
    hide ResultFromJson, ResultMembers;
    if json.Has(ResultName) && result.Some? { ResultRead(json.members[ResultName], result.value); }
  }

  /** Writing puts each field under its member, and reading takes exactly the valid document whose fields are there. */
  lemma JsonMembers(json: Json, d: IdempotencyDocument)
    ensures ToJson(d) == Some(json) ==> Members(json, d)
    ensures FromJson(json) == Some(d) <==> d.Valid() && Members(json, d)
  {
    MembersRead(json, d);
    hide IdempotencyDocument.Valid, HeaderJson, ResultJson, ResultMembers, FromJson, Members;
    if d.Valid() { JsonRoundTrip(d); }
  }

  lemma MembersRead(json: Json, d: IdempotencyDocument)
    ensures FromJson(json) == Some(d) <==> d.Valid() && Members(json, d)
  {
    hide IdempotencyDocument.Valid, OptionalResult, ResultMembers, Json.TextAt, Json.NumberAt, Json.Has;
    OptionalResultRead(json, d.result);
  }

  // ----- Stored records -----

  /** What can be printed of a record. */
  predicate PrintableRecord(r: Record) {
    && Printable(r.createdAt)
    && (r.status.Succeeded? ==> r.result.Some? && r.result.value.SuccessSnapshot? && PrintableInterval(r.result.value.interval))
  }

  lemma StoredShape(record: Record, owner: Request, created: map<World.ReservationKey, World.Creation>, hash: string)
    requires RecordOk(record, owner, created) && IsHash(hash)
    ensures var r := record.(fingerprint := hash); WellFormed(r) && (Storable(r) <==> PrintableRecord(record))
  {
    hide Printable, IsHash;
  }

  lemma ValidDocument(r: Record)
    requires ToDocument(r).Some?
    ensures ToDocument(r).value.Valid()
  {
    hide IdempotencyDocument.Valid, TimeText, ResultToDocument;
  }

  lemma StoredRecord(w: World.World, k: string)
    requires CreationInv(w) && k in w.claims.idem
    ensures k in w.claims.owners && RecordOk(w.claims.idem[k].doc, w.claims.owners[k], w.ledger.created)
  {
    hide RecordOk, IssuedOk, CreatedOk, KeysOk, CreatorsOk, ResponsesOk;
  }

  /**
   Every record in the store after any run, under the hash of its fingerprint, passes validation
   exactly if its times can be printed, and is then read back unchanged from its JSON form.
   */
  lemma HandlerRecordsRoundTrip(actions: seq<World.Action>, k: string, hash: string)
    requires k in World.Run(actions).claims.idem && IsHash(hash)
    ensures var record := World.Run(actions).claims.idem[k].doc; var r := record.(fingerprint := hash);
      && (ToDocument(r).Some? <==> PrintableRecord(record))
      && (ToDocument(r).Some? ==>
            && ToJson(ToDocument(r).value).Some?
            && var read := FromJson(ToJson(ToDocument(r).value).value); read.Some? && FromDocument(read.value) == Some(r))
  {
    hide World.Run, CreationInv, History.HistoryInv, Books.OutboxInv, SystemInvariant.PreparedOk,
         RecordOk, IsHash, Storable, PrintableRecord, WellFormed, ToDocument, FromDocument, ToJson, FromJson,
         IdempotencyDocument.Valid;
    var w := World.Run(actions);
    RunParts(actions);
    StoredRecord(w, k);
    var r := w.claims.idem[k].doc.(fingerprint := hash);
    StoredShape(w.claims.idem[k].doc, w.claims.owners[k], w.ledger.created, hash);
    DocumentRoundTrip(r);
    if ToDocument(r).Some? {
      ValidDocument(r);
      JsonRoundTrip(ToDocument(r).value);
    }
  }
}
