/**
 The N1QL predicates over stored reservation documents, which compare timestamps as strings,
 and the domain rule they stand for.
 */
module ScheduleQueries {
  import opened Wrappers
  import opened Text
  import opened Timestamp
  import opened Domain
  import opened Documents
  import opened ReservationDocuments

  /** `overlap_predicate` with the organization and status filters. */
  predicate Selected(d: ReservationDocument, org: Id, resource: Id, requestedStart: string, requestedEnd: string) {
    && d.organizationId == org && d.resourceId == resource
    && Less(d.startTime, requestedEnd) && Less(requestedStart, d.endTime)
    && d.status == "CONFIRMED"
  }

  predicate SelectedExcluding(d: ReservationDocument, org: Id, resource: Id, requestedStart: string, requestedEnd: string,
                              excluded: Id) {
    Selected(d, org, resource, requestedStart, requestedEnd) && d.reservationId != excluded
  }

  /** `reserved_unit_count`; `None` where a bound of the interval cannot be printed. */
  function ReservedUnitCount<K>(docs: map<K, ReservationDocument>, org: Id, resource: Id, requested: Interval): Option<int> {
    var start :- TimeText(requested.start);
    var end :- TimeText(requested.end);
    Some(ToInt32(|set k | k in docs && Selected(docs[k], org, resource, start, end)|))
  }

  /** `has_conflict_excluding`. */
  function HasConflictExcluding<K>(docs: map<K, ReservationDocument>, org: Id, resource: Id, requested: Interval,
                                excluded: Id): Option<bool> {
    var start :- TimeText(requested.start);
    var end :- TimeText(requested.end);
    Some(exists k :: k in docs && SelectedExcluding(docs[k], org, resource, start, end, excluded))
  }

  /** A valid document with times in the printer's form, as `ToDocument` writes them. */
  predicate Written(d: ReservationDocument) {
    && d.Valid() && |d.startTime| == 30 && |d.endTime| == 30 && DigitFields(d.startTime) && DigitFields(d.endTime)
  }

  /** The reservation a document stands for conflicts with the requested interval. */
  predicate Blocks(d: ReservationDocument, org: Id, resource: Id, requested: Interval) {
    match FromDocument(d)
    case None => false
    case Some(r) => r.org == org && r.resource == resource && HasConflict(requested, r.interval, r.status)
  }

  lemma StatusIsConfirmed(text: string)
    requires StatusFromText(text).Some?
    ensures text == "CONFIRMED" <==> StatusFromText(text) == Some(Confirmed)
  {
  }

  /** Comparing a stored time with a printed bound as strings compares the instants. */
  lemma BoundOrder(stored: string, t: Instant)
    requires TimeValue(stored).Some? && |stored| == 30 && DigitFields(stored) && Printable(t)
    ensures TimeText(t).Some?
    ensures Less(stored, TimeText(t).value) <==> TimeValue(stored).value < t
    ensures Less(TimeText(t).value, stored) <==> t < TimeValue(stored).value
  {
    hide Print, Parse, Printable, DigitFields, Less;
    TimeTextRoundTrip(t);
    ParseOrder(stored, TimeText(t).value);
    ParseOrder(TimeText(t).value, stored);
  }

  /** The string predicate selects a document exactly if the decoded reservation blocks the requested interval. */
  lemma SelectedIsConflict(d: ReservationDocument, org: Id, resource: Id, requested: Interval)
    requires Written(d) && Printable(requested.start) && Printable(requested.end)
    ensures TimeText(requested.start).Some? && TimeText(requested.end).Some?
    ensures Selected(d, org, resource, TimeText(requested.start).value, TimeText(requested.end).value)
            <==> Blocks(d, org, resource, requested)
  {
    hide TimeText, TimeValue, Printable, DigitFields, Less, StatusFromText, KindFromText;
    BoundOrder(d.startTime, requested.end);
    BoundOrder(d.endTime, requested.start);
    StatusIsConfirmed(d.status);
  }

  lemma BoundsPrint(requested: Interval)
    requires Printable(requested.start) && Printable(requested.end)
    ensures TimeText(requested.start).Some? && TimeText(requested.end).Some?
  {
    hide TimeText, TimeValue, Printable;
    TimeTextRoundTrip(requested.start);
    TimeTextRoundTrip(requested.end);
  }

  /** `reserved_unit_count` counts, on 32 bits, the decoded reservations that conflict with the interval. */
  lemma CountRefines<K>(docs: map<K, ReservationDocument>, org: Id, resource: Id, requested: Interval)
    requires forall k :: k in docs ==> Written(docs[k])
    requires Printable(requested.start) && Printable(requested.end)
    ensures ReservedUnitCount(docs, org, resource, requested)
            == Some(ToInt32(|set k | k in docs && Blocks(docs[k], org, resource, requested)|))
  {
    hide Selected, Blocks, TimeText, Printable, Written, ToInt32;
    BoundsPrint(requested);
    var start, end := TimeText(requested.start).value, TimeText(requested.end).value;
    forall k | k in docs
      ensures Selected(docs[k], org, resource, start, end) <==> Blocks(docs[k], org, resource, requested)
    {
      SelectedIsConflict(docs[k], org, resource, requested);
    }
    assert (set k | k in docs && Selected(docs[k], org, resource, start, end))
           == (set k | k in docs && Blocks(docs[k], org, resource, requested));
  }

  /** `has_conflict_excluding` is the existential form, without the excluded reservation. */
  lemma ConflictRefines<K>(docs: map<K, ReservationDocument>, org: Id, resource: Id, requested: Interval, excluded: Id)
    requires forall k :: k in docs ==> Written(docs[k])
    requires Printable(requested.start) && Printable(requested.end)
    ensures HasConflictExcluding(docs, org, resource, requested, excluded)
            == Some(exists k :: k in docs && Blocks(docs[k], org, resource, requested) && docs[k].reservationId != excluded)
  {
    hide Selected, Blocks, TimeText, Printable, Written;
    BoundsPrint(requested);
    var start, end := TimeText(requested.start).value, TimeText(requested.end).value;
    forall k | k in docs
      ensures Selected(docs[k], org, resource, start, end) <==> Blocks(docs[k], org, resource, requested)
    {
      SelectedIsConflict(docs[k], org, resource, requested);
    }
  }

  /** What the repository writes for a storable reservation is in the form the queries need, and blocks what it blocks. */
  lemma RepositoryWrites(r: ReservationState, org: Id, resource: Id, requested: Interval)
    requires Storable(r)
    ensures ToDocument(r).Some? && Written(ToDocument(r).value) && ToDocument(r).value.reservationId == r.id
    ensures Blocks(ToDocument(r).value, org, resource, requested)
            <==> r.org == org && r.resource == resource && HasConflict(requested, r.interval, r.status)
  {
    hide TimeText, TimeValue, Printable, DigitFields, StatusText, KindText, Storable, ReservationDocument.Valid, ToDocument,
         FromDocument, HasConflict;
    StoredTimes(r);
    DocumentRoundTrip(r);
    ValidDocument(r);
  }
}
