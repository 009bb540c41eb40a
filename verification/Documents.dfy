/**
 What the stored documents have in common: JSON values and the text of timestamps. A JSON
 member name is a constructor of `Name`, spelled as the member is, with a capital letter;
 a conversion that throws is `None`.
 */
module Documents {
  import opened Wrappers
  import opened Timestamp
  import opened Domain

  datatype Name =
    | DocumentType | SchemaVersion | ReservationId | OrganizationId | ResourceId | CreatedBy | StartTime | EndTime
    | Purpose | StatusName | KindName | Version | ApprovalName | RejectionName | CancellationName | ApprovedBy | ApprovedAt
    | RejectedBy | RejectedAt | CancelledBy | CancelledAt | Reason | CreatorId | OperationName | IdempotencyKey
    | Fingerprint | CreatedEventId | ConfirmedEventId | ApprovalRequestedEventId | CreatedAt | ResultName
    | CreationStatus | IntervalStart | IntervalEnd | ReservationStatus | ReservationKind | InitialVersion
    | InitialStatus | ConfirmedBy | RequestedBy | PreviousStatus | ExtendedBy | PreviousStartTime | PreviousEndTime
    | ExtendedStartTime | ExtendedEndTime | EventId | AggregateId | AggregateType | EventType | OccurredAt | AttemptCount
    | Payload | PublishedAt

  datatype Json = Text(text: string) | Number(number: UInt64) | Object(members: map<Name, Json>)
  {
    predicate Has(name: Name) { Object? && name in members }

    /** `at(name).get_string()`. */
    function TextAt(name: Name): Option<string> {
      if Has(name) && members[name].Text? then Some(members[name].text) else None
    }

    /** `at(name).get_unsigned()`. */
    function NumberAt(name: Name): Option<UInt64> {
      if Has(name) && members[name].Number? then Some(members[name].number) else None
    }

    /** The text of a member that may be missing; a member of another kind is an error. */
    function OptionalText(name: Name): Option<Option<string>> {
      if Has(name) then (if members[name].Text? then Some(Some(members[name].text)) else None) else Some(None)
    }

    function OptionalNumber(name: Name): Option<Option<UInt64>> {
      if Has(name) then (if members[name].Number? then Some(Some(members[name].number)) else None) else Some(None)
    }
  }

  /** `json[name] = *value` if there is a value. */
  function WithText(members: map<Name, Json>, name: Name, value: Option<string>): map<Name, Json> {
    if value.Some? then members[name := Text(value.value)] else members
  }

  function WithNumber(members: map<Name, Json>, name: Name, value: Option<UInt64>): map<Name, Json> {
    if value.Some? then members[name := Number(value.value)] else members
  }

  /** `reservation_timestamp_to_string`. */
  function TimeText(t: Instant): Option<string> {
    if Print(t).Success? then Some(Print(t).value) else None
  }

  /** `reservation_timestamp_from_string`. */
  function TimeValue(text: string): Option<Instant> {
    if Parse(text).Success? then Some(Parse(text).value) else None
  }

  predicate IsTime(text: string) { TimeValue(text).Some? }

  /** A text of a time as the printer writes it; the parser takes others, with signs in their fields. */
  predicate IsPrinted(text: string) {
    IsTime(text) && TimeText(TimeValue(text).value) == Some(text)
  }

  lemma TimeTextRoundTrip(t: Instant)
    ensures TimeText(t).Some? <==> Printable(t)
    ensures Printable(t) ==> TimeValue(TimeText(t).value) == Some(t) && |TimeText(t).value| == 30 && DigitFields(TimeText(t).value)
  {
    hide Print, Parse, Printable, DigitFields;
    PrintDefined(t);
    if Printable(t) { ParsePrint(t); }
  }
}
