/** The reservation document: the aggregate's fields as text, its validation, and its JSON form. */
module ReservationDocuments {
  import opened Wrappers
  import opened Timestamp
  import opened Domain
  import opened Lifecycle
  import opened Documents

  datatype ApprovalDocument = ApprovalDocument(approvedBy: string, approvedAt: string)
  datatype RejectionDocument = RejectionDocument(rejectedBy: string, rejectedAt: string, reason: Option<string>)
  datatype CancellationDocument = CancellationDocument(cancelledBy: string, cancelledAt: string, reason: Option<string>)

  datatype ReservationDocument = ReservationDocument(
    schemaVersion: UInt64, reservationId: string, organizationId: string, resourceId: string, createdBy: string,
    startTime: string, endTime: string, purpose: string, status: string, kind: string,
    approval: Option<ApprovalDocument>, rejection: Option<RejectionDocument>, cancellation: Option<CancellationDocument>,
    version: UInt64)
  {
    /** `validate_reservation_document`. */
    predicate Valid() {
      && schemaVersion == 1 && reservationId != "" && organizationId != "" && resourceId != "" && createdBy != ""
      && status != "" && kind != "" && StatusFromText(status).Some? && KindFromText(kind).Some?
      && IsTime(startTime) && IsTime(endTime) && TimeValue(startTime).value < TimeValue(endTime).value
      && version != 0
      && (approval.Some? ==> approval.value.approvedBy != "" && IsTime(approval.value.approvedAt))
      && (rejection.Some? ==> rejection.value.rejectedBy != "" && IsTime(rejection.value.rejectedAt))
      && (cancellation.Some? ==> cancellation.value.cancelledBy != "" && IsTime(cancellation.value.cancelledAt))
    }
  }

  // ----- Aggregate and document -----

  function ApprovalToDocument(info: Option<ApprovalInfo>): Option<Option<ApprovalDocument>> {
    if info == None then Some(None) else
    var at :- TimeText(info.value.at);
    Some(Some(ApprovalDocument(info.value.actor, at)))
  }

  function RejectionToDocument(info: Option<RejectionInfo>): Option<Option<RejectionDocument>> {
    if info == None then Some(None) else
    var at :- TimeText(info.value.at);
    Some(Some(RejectionDocument(info.value.actor, at, info.value.reason)))
  }

  function CancellationToDocument(info: Option<CancellationInfo>): Option<Option<CancellationDocument>> {
    if info == None then Some(None) else
    var at :- TimeText(info.value.at);
    Some(Some(CancellationDocument(info.value.actor, at, info.value.reason)))
  }

  /** `to_reservation_document`. */
  function ToDocument(r: ReservationState): Option<ReservationDocument> {
    var start :- TimeText(r.interval.start);
    var end :- TimeText(r.interval.end);
    var approval :- ApprovalToDocument(r.approval);
    var rejection :- RejectionToDocument(r.rejection);
    var cancellation :- CancellationToDocument(r.cancellation);
    var document := ReservationDocument(1, r.id, r.org, r.resource, r.creator, start, end, r.purpose, StatusText(r.status),
                                        KindText(r.kind), approval, rejection, cancellation, r.version);
    if document.Valid() then Some(document) else None
  }

  /** `to_domain_reservation`. */
  function FromDocument(d: ReservationDocument): Option<ReservationState> {
    if !d.Valid() then None else
    var approval := if d.approval == None then None
                    else Some(ApprovalInfo(d.approval.value.approvedBy, TimeValue(d.approval.value.approvedAt).value));
    var rejection := if d.rejection == None then None
                     else Some(RejectionInfo(d.rejection.value.rejectedBy, TimeValue(d.rejection.value.rejectedAt).value,
                                             d.rejection.value.reason));
    var cancellation := if d.cancellation == None then None
                        else Some(CancellationInfo(d.cancellation.value.cancelledBy,
                                                   TimeValue(d.cancellation.value.cancelledAt).value,
                                                   d.cancellation.value.reason));
    Some(ReservationState(d.organizationId, d.reservationId, d.resourceId, d.createdBy,
                          TimeInterval(TimeValue(d.startTime).value, TimeValue(d.endTime).value), d.purpose,
                          KindFromText(d.kind).value, StatusFromText(d.status).value,
                          approval, rejection, cancellation, d.version))
  }

  /** Every time the reservation carries can be printed. */
  predicate Storable(r: ReservationState) {
    && Printable(r.interval.start) && Printable(r.interval.end) && r.version != 0
    && (r.approval.Some? ==> Printable(r.approval.value.at)) && (r.rejection.Some? ==> Printable(r.rejection.value.at))
    && (r.cancellation.Some? ==> Printable(r.cancellation.value.at))
  }

  lemma DecisionTexts(r: ReservationState)
    ensures r.approval.Some? && Printable(r.approval.value.at) ==>
      TimeText(r.approval.value.at).Some? && TimeValue(TimeText(r.approval.value.at).value) == Some(r.approval.value.at)
    ensures r.rejection.Some? && Printable(r.rejection.value.at) ==>
      TimeText(r.rejection.value.at).Some? && TimeValue(TimeText(r.rejection.value.at).value) == Some(r.rejection.value.at)
    ensures r.cancellation.Some? && Printable(r.cancellation.value.at) ==>
      && TimeText(r.cancellation.value.at).Some?
      && TimeValue(TimeText(r.cancellation.value.at).value) == Some(r.cancellation.value.at)
    ensures r.approval.Some? && TimeText(r.approval.value.at).Some? ==> Printable(r.approval.value.at)
    ensures r.rejection.Some? && TimeText(r.rejection.value.at).Some? ==> Printable(r.rejection.value.at)
    ensures r.cancellation.Some? && TimeText(r.cancellation.value.at).Some? ==> Printable(r.cancellation.value.at)
  {
    hide TimeText, TimeValue, Printable;
    if r.approval.Some? { TimeTextRoundTrip(r.approval.value.at); }
    if r.rejection.Some? { TimeTextRoundTrip(r.rejection.value.at); }
    if r.cancellation.Some? { TimeTextRoundTrip(r.cancellation.value.at); }
  }

  /** A reservation can be stored exactly if its times can be printed and its version has not wrapped to zero; reading it back gives it back. */
  lemma DocumentRoundTrip(r: ReservationState)
    ensures ToDocument(r).Some? <==> Storable(r)
    ensures Storable(r) ==> FromDocument(ToDocument(r).value) == Some(r)
  {
    hide TimeText, TimeValue, Printable, StatusText, StatusFromText, KindText, KindFromText;
    TimeTextRoundTrip(r.interval.start);
    TimeTextRoundTrip(r.interval.end);
    DecisionTexts(r);
    StatusTexts(r.status);
    KindTexts(r.kind);
  }

  /** Every time of the document is in the printer's form. */
  predicate PrintedTimes(d: ReservationDocument) {
    && IsPrinted(d.startTime) && IsPrinted(d.endTime)
    && (d.approval.Some? ==> IsPrinted(d.approval.value.approvedAt))
    && (d.rejection.Some? ==> IsPrinted(d.rejection.value.rejectedAt))
    && (d.cancellation.Some? ==> IsPrinted(d.cancellation.value.cancelledAt))
  }

  /** An accepted document is what the repository would write for the reservation it stands for, if and only if its times are printed. */
  lemma DocumentReadBack(d: ReservationDocument)
    requires FromDocument(d).Some?
    ensures ToDocument(FromDocument(d).value) == Some(d) <==> PrintedTimes(d)
  {
    hide TimeText, TimeValue, StatusText, StatusFromText, KindText, KindFromText;
    StatusReadBack(d.status);
    KindReadBack(d.kind);
  }

  /** Each field of a document is the field of the reservation that it is named after. */
  lemma DocumentFields(r: ReservationState)
    requires ToDocument(r).Some?
    ensures var d := ToDocument(r).value;
      && d.schemaVersion == 1 && d.organizationId == r.org && d.reservationId == r.id && d.resourceId == r.resource
      && d.createdBy == r.creator && d.purpose == r.purpose && d.version == r.version
      && d.status == StatusText(r.status) && d.kind == KindText(r.kind)
      && TimeText(r.interval.start) == Some(d.startTime) && TimeText(r.interval.end) == Some(d.endTime)
      && (d.approval.Some? <==> r.approval.Some?) && (d.rejection.Some? <==> r.rejection.Some?)
      && (d.cancellation.Some? <==> r.cancellation.Some?)
      && (r.approval.Some? ==>
            d.approval.value.approvedBy == r.approval.value.actor && TimeText(r.approval.value.at) == Some(d.approval.value.approvedAt))
      && (r.rejection.Some? ==>
            && d.rejection.value.rejectedBy == r.rejection.value.actor && d.rejection.value.reason == r.rejection.value.reason
            && TimeText(r.rejection.value.at) == Some(d.rejection.value.rejectedAt))
      && (r.cancellation.Some? ==>
            && d.cancellation.value.cancelledBy == r.cancellation.value.actor
            && d.cancellation.value.reason == r.cancellation.value.reason
            && TimeText(r.cancellation.value.at) == Some(d.cancellation.value.cancelledAt))
  {
    hide TimeText, TimeValue, StatusText, KindText, ReservationDocument.Valid;
  }

  // ----- Document and JSON -----

  function ApprovalJson(d: ApprovalDocument): Json {
    Object(map[ApprovedBy := Text(d.approvedBy), ApprovedAt := Text(d.approvedAt)])
  }

  function RejectionJson(d: RejectionDocument): Json {
    Object(WithText(map[RejectedBy := Text(d.rejectedBy), RejectedAt := Text(d.rejectedAt)], Reason, d.reason))
  }

  function CancellationJson(d: CancellationDocument): Json {
    Object(WithText(map[CancelledBy := Text(d.cancelledBy), CancelledAt := Text(d.cancelledAt)], Reason, d.reason))
  }

  function BaseJson(d: ReservationDocument): map<Name, Json> {
    map[DocumentType := Text("reservation"), SchemaVersion := Number(d.schemaVersion),
        ReservationId := Text(d.reservationId), OrganizationId := Text(d.organizationId), ResourceId := Text(d.resourceId),
        CreatedBy := Text(d.createdBy), StartTime := Text(d.startTime), EndTime := Text(d.endTime),
        Purpose := Text(d.purpose), StatusName := Text(d.status), KindName := Text(d.kind), Version := Number(d.version)]
  }

  /** `reservation_document_to_json`. */
  function ToJson(d: ReservationDocument): Option<Json> {
    if !d.Valid() then None else
    var json := BaseJson(d);
    var json := if d.approval.Some? then json[ApprovalName := ApprovalJson(d.approval.value)] else json;
    var json := if d.rejection.Some? then json[RejectionName := RejectionJson(d.rejection.value)] else json;
    var json := if d.cancellation.Some? then json[CancellationName := CancellationJson(d.cancellation.value)] else json;
    Some(Object(json))
  }

  function ApprovalFromJson(json: Json): Option<Option<ApprovalDocument>> {
    if !json.Has(ApprovalName) then Some(None) else
    var actor :- json.members[ApprovalName].TextAt(ApprovedBy);
    var at :- json.members[ApprovalName].TextAt(ApprovedAt);
    Some(Some(ApprovalDocument(actor, at)))
  }

  function RejectionFromJson(json: Json): Option<Option<RejectionDocument>> {
    if !json.Has(RejectionName) then Some(None) else
    var actor :- json.members[RejectionName].TextAt(RejectedBy);
    var at :- json.members[RejectionName].TextAt(RejectedAt);
    var reason :- json.members[RejectionName].OptionalText(Reason);
    Some(Some(RejectionDocument(actor, at, reason)))
  }

  function CancellationFromJson(json: Json): Option<Option<CancellationDocument>> {
    if !json.Has(CancellationName) then Some(None) else
    var actor :- json.members[CancellationName].TextAt(CancelledBy);
    var at :- json.members[CancellationName].TextAt(CancelledAt);
    var reason :- json.members[CancellationName].OptionalText(Reason);
    Some(Some(CancellationDocument(actor, at, reason)))
  }

  /** `reservation_document_from_json`. */
  function FromJson(json: Json): Option<ReservationDocument> {
    var documentType :- json.TextAt(DocumentType);
    if documentType != "reservation" then None else
    var schemaVersion :- json.NumberAt(SchemaVersion);
    var reservationId :- json.TextAt(ReservationId);
    var organizationId :- json.TextAt(OrganizationId);
    var resourceId :- json.TextAt(ResourceId);
    var createdBy :- json.TextAt(CreatedBy);
    var startTime :- json.TextAt(StartTime);
    var endTime :- json.TextAt(EndTime);
    var purpose :- json.TextAt(Purpose);
    var status :- json.TextAt(StatusName);
    var kind :- json.TextAt(KindName);
    var approval :- ApprovalFromJson(json);
    var rejection :- RejectionFromJson(json);
    var cancellation :- CancellationFromJson(json);
    var version :- json.NumberAt(Version);
    var document := ReservationDocument(schemaVersion, reservationId, organizationId, resourceId, createdBy, startTime,
                                        endTime, purpose, status, kind, approval, rejection, cancellation, version);
    if document.Valid() then Some(document) else None
  }

  lemma ApprovalRead(d: ReservationDocument, json: Json)
    requires json.Object? && (ApprovalName in json.members <==> d.approval.Some?)
    requires d.approval.Some? ==> json.members[ApprovalName] == ApprovalJson(d.approval.value)
    ensures ApprovalFromJson(json) == Some(d.approval)
  {
  }

  lemma RejectionRead(d: ReservationDocument, json: Json)
    requires json.Object? && (RejectionName in json.members <==> d.rejection.Some?)
    requires d.rejection.Some? ==> json.members[RejectionName] == RejectionJson(d.rejection.value)
    ensures RejectionFromJson(json) == Some(d.rejection)
  {
  }

  lemma CancellationRead(d: ReservationDocument, json: Json)
    requires json.Object? && (CancellationName in json.members <==> d.cancellation.Some?)
    requires d.cancellation.Some? ==> json.members[CancellationName] == CancellationJson(d.cancellation.value)
    ensures CancellationFromJson(json) == Some(d.cancellation)
  {
  }

  lemma DecisionsFromJson(d: ReservationDocument)
    requires d.Valid()
    ensures var json := ToJson(d).value;
      && ApprovalFromJson(json) == Some(d.approval) && RejectionFromJson(json) == Some(d.rejection)
      && CancellationFromJson(json) == Some(d.cancellation)
  {
    hide ReservationDocument.Valid, ApprovalFromJson, RejectionFromJson, CancellationFromJson, ApprovalJson, RejectionJson,
         CancellationJson;
    var json := ToJson(d).value;
    ApprovalRead(d, json);
    RejectionRead(d, json);
    CancellationRead(d, json);
  }

  /** The optional blocks leave the other members as they are. */
  lemma BaseKept(d: ReservationDocument)
    requires d.Valid()
    ensures ExtendsBase(ToJson(d).value, d)
  {
    hide IsTime, TimeValue, StatusFromText, KindFromText, ApprovalJson, RejectionJson, CancellationJson;
  }

  predicate ExtendsBase(json: Json, d: ReservationDocument) {
    json.Object? && forall name :: name in BaseJson(d) ==> name in json.members && json.members[name] == BaseJson(d)[name]
  }

  lemma IdentityRead(d: ReservationDocument, json: Json)
    requires ExtendsBase(json, d)
    ensures json.TextAt(DocumentType) == Some("reservation") && json.NumberAt(SchemaVersion) == Some(d.schemaVersion)
    ensures json.TextAt(ReservationId) == Some(d.reservationId) && json.TextAt(OrganizationId) == Some(d.organizationId)
    ensures json.TextAt(ResourceId) == Some(d.resourceId) && json.TextAt(CreatedBy) == Some(d.createdBy)
  {
    assert BaseJson(d)[DocumentType] == Text("reservation") && BaseJson(d)[SchemaVersion] == Number(d.schemaVersion);
    assert BaseJson(d)[ReservationId] == Text(d.reservationId) && BaseJson(d)[OrganizationId] == Text(d.organizationId);
    assert BaseJson(d)[ResourceId] == Text(d.resourceId) && BaseJson(d)[CreatedBy] == Text(d.createdBy);
  }

  lemma DetailsRead(d: ReservationDocument, json: Json)
    requires ExtendsBase(json, d)
    ensures json.TextAt(StartTime) == Some(d.startTime) && json.TextAt(EndTime) == Some(d.endTime)
    ensures json.TextAt(Purpose) == Some(d.purpose) && json.TextAt(StatusName) == Some(d.status)
    ensures json.TextAt(KindName) == Some(d.kind) && json.NumberAt(Version) == Some(d.version)
  {
    assert BaseJson(d)[StartTime] == Text(d.startTime) && BaseJson(d)[EndTime] == Text(d.endTime);
    assert BaseJson(d)[Purpose] == Text(d.purpose) && BaseJson(d)[StatusName] == Text(d.status);
    assert BaseJson(d)[KindName] == Text(d.kind) && BaseJson(d)[Version] == Number(d.version);
  }

  /** A text member, or none. */
  predicate TextOrNone(json: Json, name: Name, text: Option<string>) {
    json.OptionalText(name) == Some(text)
  }

  /** Each field of a document under the member of its name. */
  predicate Members(json: Json, d: ReservationDocument) {
    && json.TextAt(DocumentType) == Some("reservation") && json.NumberAt(SchemaVersion) == Some(d.schemaVersion)
    && json.TextAt(ReservationId) == Some(d.reservationId) && json.TextAt(OrganizationId) == Some(d.organizationId)
    && json.TextAt(ResourceId) == Some(d.resourceId) && json.TextAt(CreatedBy) == Some(d.createdBy)
    && json.TextAt(StartTime) == Some(d.startTime) && json.TextAt(EndTime) == Some(d.endTime)
    && json.TextAt(Purpose) == Some(d.purpose) && json.TextAt(StatusName) == Some(d.status)
    && json.TextAt(KindName) == Some(d.kind) && json.NumberAt(Version) == Some(d.version)
    && (json.Has(ApprovalName) <==> d.approval.Some?) && (json.Has(RejectionName) <==> d.rejection.Some?)
    && (json.Has(CancellationName) <==> d.cancellation.Some?)
    && (d.approval.Some? ==>
          var block := json.members[ApprovalName];
          && block.TextAt(ApprovedBy) == Some(d.approval.value.approvedBy)
          && block.TextAt(ApprovedAt) == Some(d.approval.value.approvedAt))
    && (d.rejection.Some? ==>
          var block := json.members[RejectionName];
          && block.TextAt(RejectedBy) == Some(d.rejection.value.rejectedBy)
          && block.TextAt(RejectedAt) == Some(d.rejection.value.rejectedAt) && TextOrNone(block, Reason, d.rejection.value.reason))
    && (d.cancellation.Some? ==>
          var block := json.members[CancellationName];
          && block.TextAt(CancelledBy) == Some(d.cancellation.value.cancelledBy)
          && block.TextAt(CancelledAt) == Some(d.cancellation.value.cancelledAt)
          && TextOrNone(block, Reason, d.cancellation.value.reason))
  }

  /** Writing puts each field under its member, and reading takes exactly the valid document whose fields are there. */
  lemma JsonMembers(json: Json, d: ReservationDocument)
    ensures ToJson(d) == Some(json) ==> Members(json, d)
    ensures FromJson(json) == Some(d) <==> d.Valid() && Members(json, d)
  {
    hide ReservationDocument.Valid;
    if ToJson(d) == Some(json) { BlocksWritten(d); }
    MembersRead(json, d);
  }

  lemma BlocksWritten(d: ReservationDocument)
    requires d.Valid()
    ensures Members(ToJson(d).value, d)
  {
    hide ReservationDocument.Valid, ExtendsBase, BaseJson, ApprovalJson, RejectionJson, CancellationJson, Json.TextAt,
         Json.NumberAt, Json.OptionalText;
    BaseKept(d);
    NoBlocks(d);
    IdentityRead(d, ToJson(d).value);
    DetailsRead(d, ToJson(d).value);
    if d.approval.Some? { ApprovalMembers(d.approval.value); }
    if d.rejection.Some? { RejectionMembers(d.rejection.value); }
    if d.cancellation.Some? { CancellationMembers(d.cancellation.value); }
  }

  lemma NoBlocks(d: ReservationDocument)
    ensures ApprovalName !in BaseJson(d) && RejectionName !in BaseJson(d) && CancellationName !in BaseJson(d)
  {
  }

  lemma ApprovalMembers(d: ApprovalDocument)
    ensures ApprovalJson(d).TextAt(ApprovedBy) == Some(d.approvedBy) && ApprovalJson(d).TextAt(ApprovedAt) == Some(d.approvedAt)
  {
  }

  lemma RejectionMembers(d: RejectionDocument)
    ensures var json := RejectionJson(d);
      json.TextAt(RejectedBy) == Some(d.rejectedBy) && json.TextAt(RejectedAt) == Some(d.rejectedAt)
      && TextOrNone(json, Reason, d.reason)
  {
  }

  lemma CancellationMembers(d: CancellationDocument)
    ensures var json := CancellationJson(d);
      json.TextAt(CancelledBy) == Some(d.cancelledBy) && json.TextAt(CancelledAt) == Some(d.cancelledAt)
      && TextOrNone(json, Reason, d.reason)
  {
  }

  lemma MembersRead(json: Json, d: ReservationDocument)
    ensures FromJson(json) == Some(d) <==> d.Valid() && Members(json, d)
  {
    hide ReservationDocument.Valid;
  }

  /** Reading the JSON form of a valid document gives the document back. */
  lemma JsonRoundTrip(d: ReservationDocument)
    requires d.Valid()
    ensures ToJson(d).Some? && FromJson(ToJson(d).value) == Some(d)
  {
    hide ReservationDocument.Valid, ApprovalFromJson, RejectionFromJson, CancellationFromJson, ApprovalJson,
         RejectionJson, CancellationJson, BaseJson, ExtendsBase, Json.TextAt, Json.NumberAt;
    DecisionsFromJson(d);
    BaseKept(d);
    IdentityRead(d, ToJson(d).value);
    DetailsRead(d, ToJson(d).value);
  }

  /** What the repository writes for a storable reservation, it reads back as that reservation. */
  lemma StoredRoundTrip(r: ReservationState)
    requires Storable(r)
    ensures ToDocument(r).Some? && ToJson(ToDocument(r).value).Some?
    ensures var read := FromJson(ToJson(ToDocument(r).value).value); read.Some? && FromDocument(read.value) == Some(r)
  {
    hide FromJson, ToJson, Storable, ReservationDocument.Valid;
    DocumentRoundTrip(r);
    ValidDocument(r);
    JsonRoundTrip(ToDocument(r).value);
  }

  lemma ValidDocument(r: ReservationState)
    requires ToDocument(r).Some?
    ensures ToDocument(r).value.Valid()
  {
    hide TimeText, ReservationDocument.Valid, ApprovalToDocument, RejectionToDocument, CancellationToDocument;
  }

  /** The stored interval is 30-byte text of digits and separators, which is what the overlap query compares. */
  lemma StoredTimes(r: ReservationState)
    requires Storable(r)
    ensures ToDocument(r).Some?
    ensures var d := ToDocument(r).value;
      && |d.startTime| == |d.endTime| == 30 && DigitFields(d.startTime) && DigitFields(d.endTime)
      && TimeValue(d.startTime) == Some(r.interval.start) && TimeValue(d.endTime) == Some(r.interval.end)
      && d.organizationId == r.org && d.reservationId == r.id && d.resourceId == r.resource
      && d.status == StatusText(r.status)
  {
    hide TimeText, TimeValue, Printable, DigitFields, StatusText, KindText, ReservationDocument.Valid,
         ApprovalToDocument, RejectionToDocument, CancellationToDocument, FromDocument;
    DocumentRoundTrip(r);
    TimeTextRoundTrip(r.interval.start);
    TimeTextRoundTrip(r.interval.end);
  }

  /** The first representable instant has no representable midnight, so no storable life is long enough for a version to wrap. */
  lemma VersionStaysPositive(start: ReservationState, ts: seq<Transition>)
    requires IsCreation(start) && Legal(start, ts) && Printable(After(start, ts).interval.start)
    ensures After(start, ts).version == 1 + |ts|
  {
    hide Next, Enabled, Departed, Consistent, Printable;
    DepartureAfter(start, ts);
    FirstPrintable(start.interval.start);
    VersionNeverWraps(start, ts);
  }

  lemma FirstPrintable(t: Instant)
    requires Printable(t)
    ensures t > INT64_MIN + 3
  {
  }

  /** Every reservation reached from a creation by any transitions is stored and read back unchanged, if its times can be printed. */
  lemma ReachableRoundTrip(start: ReservationState, ts: seq<Transition>)
    requires IsCreation(start) && Legal(start, ts)
    requires var r := After(start, ts); Storable(r.(version := 1))
    ensures var r := After(start, ts);
      && ToDocument(r).Some? && ToJson(ToDocument(r).value).Some?
      && var read := FromJson(ToJson(ToDocument(r).value).value); read.Some? && FromDocument(read.value) == Some(r)
  {
    hide After, Legal, Printable, ToDocument, FromDocument, ToJson, FromJson;
    VersionStaysPositive(start, ts);
    StoredRoundTrip(After(start, ts));
  }
}
