/**
 The creation store: one transaction that inserts the reservation and an outbox document for
 each of its events, or nothing; and the check that both creation events are there.
 */
module CreationStore {
  import opened Wrappers
  import opened Timestamp
  import opened Domain
  import opened Documents
  import D = ReservationDocuments
  import opened Idempotency
  import opened Handlers
  import opened OutboxDocuments
  import L = Lifecycle
  import opened Schedule
  import opened ReservationAggregate
  import opened ReservationHandlers

  /** `TokenUnread`: the transaction is committed, and reading the reservation's token afterwards fails. */
  datatype PersistOutcome = Persisted | TokenUnread | AlreadyExists | Unstorable

  predicate Committed(outcome: PersistOutcome) { outcome.Persisted? || outcome.TokenUnread? }

  /** The documents of a list of events that can all be written; `None` if one cannot. */
  function EventDocuments(org: Id, aggregate: Id, events: seq<Event>): Option<seq<OutboxDocument>>
    decreases |events|
  {
    if events == [] then Some([])
    else
      var rest :- EventDocuments(org, aggregate, events[..|events| - 1]);
      var document :- ToDocument(org, aggregate, events[|events| - 1]);
      if Printable(document.occurredAt) then Some(rest + [document]) else None
  }

  function WithDocuments(outbox: map<Key, OutboxDocument>, org: Id, documents: seq<OutboxDocument>): map<Key, OutboxDocument>
    decreases |documents|
  {
    if documents == [] then outbox
    else
      var d := documents[|documents| - 1];
      WithDocuments(outbox, org, documents[..|documents| - 1])[(org, d.eventId) := d]
  }

  /** No document of the list has a key that is taken, by an earlier one of the list or before. */
  predicate NewDocuments(outbox: map<Key, OutboxDocument>, org: Id, documents: seq<OutboxDocument>)
    decreases |documents|
  {
    documents == [] ||
    (NewDocuments(outbox, org, documents[..|documents| - 1]) &&
     (org, documents[|documents| - 1].eventId) !in WithDocuments(outbox, org, documents[..|documents| - 1]))
  }

  lemma {:induction false} NoDocuments(org: Id, aggregate: Id, events: seq<Event>, n: nat)
    requires n <= |events| && EventDocuments(org, aggregate, events[..n]) == None
    ensures EventDocuments(org, aggregate, events) == None
    decreases |events|
  {
    hide ToDocument, Printable;
    if n == |events| {
      assert events[..n] == events;
    } else {
      var init := events[..|events| - 1];
      assert init[..n] == events[..n];
      NoDocuments(org, aggregate, init, n);
    }
  }

  lemma {:induction false} NotNew(outbox: map<Key, OutboxDocument>, org: Id, documents: seq<OutboxDocument>, n: nat)
    requires n <= |documents| && !NewDocuments(outbox, org, documents[..n])
    ensures !NewDocuments(outbox, org, documents)
    decreases |documents|
  {
    if n == |documents| {
      assert documents[..n] == documents;
    } else {
      var init := documents[..|documents| - 1];
      assert init[..n] == documents[..n];
      NotNew(outbox, org, init, n);
    }
  }

  /** The loop that builds the inserts. */
  method BuildInserts(org: Id, aggregate: Id, events: seq<Event>) returns (documents: Option<seq<OutboxDocument>>)
    ensures documents == EventDocuments(org, aggregate, events)
  {
    hide ToDocument, Printable, TimeText;
    var built: seq<OutboxDocument> := [];
    var i := 0;
    while i < |events|
      invariant 0 <= i <= |events|
      invariant EventDocuments(org, aggregate, events[..i]) == Some(built)
    {
      var document := ToDocument(org, aggregate, events[i]);
      assert events[..i + 1][..i] == events[..i];
      if document.Some? { TimeTextRoundTrip(document.value.occurredAt); }
      if document == None || TimeText(document.value.occurredAt) == None {
        NoDocuments(org, aggregate, events, i + 1);
        return None;
      }
      built := built + [document.value];
      i := i + 1;
    }
    assert events[..i] == events;
    documents := Some(built);
  }

  /** The inserts of the transaction, staged one after another. */
  method StageInserts(outbox: map<Key, OutboxDocument>, org: Id, documents: seq<OutboxDocument>)
    returns (staged: Option<map<Key, OutboxDocument>>)
    ensures staged == if NewDocuments(outbox, org, documents) then Some(WithDocuments(outbox, org, documents)) else None
  {
    var current := outbox;
    var j := 0;
    while j < |documents|
      invariant 0 <= j <= |documents|
      invariant current == WithDocuments(outbox, org, documents[..j]) && NewDocuments(outbox, org, documents[..j])
    {
      assert documents[..j + 1][..j] == documents[..j];
      if (org, documents[j].eventId) in current {
        NotNew(outbox, org, documents, j + 1);
        return None;
      }
      current := current[(org, documents[j].eventId) := documents[j]];
      j := j + 1;
    }
    assert documents[..j] == documents;
    staged := Some(current);
  }

  /** What `persist` does to both collections. Its answer says that nothing was stored, or that everything was. */
  predicate PersistedAs(docs: map<Key, StoredDocument>, docs': map<Key, StoredDocument>, outbox: map<Key, OutboxDocument>,
                        outbox': map<Key, OutboxDocument>, org: Id, r: ReservationState, events: seq<Event>,
                        tokenReadable: bool, outcome: PersistOutcome) {
    var documents := EventDocuments(org, r.id, events);
    && (outcome.Unstorable? <==> r.org != org || !D.Storable(r) || documents == None)
    && (Committed(outcome) <==>
          && r.org == org && D.Storable(r) && documents.Some? && KeyOf(r) !in docs
          && NewDocuments(outbox, org, documents.value))
    && (Committed(outcome) ==> (outcome.Persisted? <==> tokenReadable))
    && (if Committed(outcome)
        then DecodedBook(docs') == DecodedBook(docs)[KeyOf(r) := r] && outbox' == WithDocuments(outbox, org, documents.value)
        else docs' == docs && outbox' == outbox)
  }

  datatype EventCheck = Present | Missing | Invalid

  /** The identity of the document and its type: creation first, then confirmation or approval request. */
  predicate Compatible(d: OutboxDocument, org: Id, reservation: Id, eventId: Id, index: nat) {
    && d.organizationId == org && d.aggregateId == reservation && d.eventId == eventId
    && (if index == 0 then d.eventType == EventKindText(CreatedKind)
        else d.eventType == EventKindText(ConfirmedKind) || d.eventType == EventKindText(ApprovalRequestedKind))
  }

  function CheckFrom(outbox: map<Key, OutboxDocument>, org: Id, reservation: Id, eventIds: seq<Id>, index: nat): EventCheck
    decreases |eventIds| - index
  {
    if index >= |eventIds| then Present
    else if (org, eventIds[index]) !in outbox then Missing
    else if !Compatible(outbox[(org, eventIds[index])], org, reservation, eventIds[index], index) then Invalid
    else CheckFrom(outbox, org, reservation, eventIds, index + 1)
  }

  class CreationStore {
    const reservations: ReservationRepository
    var outbox: map<Key, OutboxDocument>

    constructor (reservations: ReservationRepository)
      ensures this.reservations == reservations && outbox == map[]
    {
      this.reservations, outbox := reservations, map[];
    }

    /** All or nothing; `tokenReadable` says whether the read after the commit answers. */
    method Persist(org: Id, reservation: Reservation, events: seq<Event>, tokenReadable: bool)
      returns (outcome: PersistOutcome)
      requires reservations.Valid()
      modifies this, reservations
      ensures reservations.Valid()
      ensures PersistedAs(old(reservations.docs), reservations.docs, old(outbox), outbox, org, old(reservation.State()),
                          events, tokenReadable, outcome)
    {
      hide D.ToDocument, D.FromDocument, D.Storable, DecodedBook, DocumentsOk, EventDocuments, NewDocuments, WithDocuments;
      D.DocumentRoundTrip(reservation.State());
      if reservation.org != org || D.ToDocument(reservation.State()) == None { return Unstorable; }
      var documents := BuildInserts(org, reservation.id, events);
      if documents == None { return Unstorable; }
      if KeyOf(reservation.State()) in reservations.docs { return AlreadyExists; }
      var staged := StageInserts(outbox, org, documents.value);
      if staged == None { return AlreadyExists; }
      var inserted := reservations.Insert(org, reservation);
      outbox := staged.value;
      outcome := if tokenReadable then Persisted else TokenUnread;
    }

    /** `contains_all`: a loop over the two expected events that stops at the first one missing or wrong. */
    method ContainsAll(org: Id, reservation: Id, eventIds: seq<Id>) returns (result: EventCheck)
      ensures result == if |eventIds| != 2 then Missing else CheckFrom(outbox, org, reservation, eventIds, 0)
    {
      if |eventIds| != 2 { return Missing; }
      var index := 0;
      while index < |eventIds|
        invariant 0 <= index <= |eventIds|
        invariant CheckFrom(outbox, org, reservation, eventIds, 0) == CheckFrom(outbox, org, reservation, eventIds, index)
      {
        if (org, eventIds[index]) !in outbox { return Missing; }
        if !Compatible(outbox[(org, eventIds[index])], org, reservation, eventIds[index], index) { return Invalid; }
        index := index + 1;
      }
      result := Present;
    }
  }

  lemma TwoDocuments(org: Id, aggregate: Id, e: Event, f: Event)
    requires EventDocuments(org, aggregate, [e, f]).Some?
    ensures ToDocument(org, aggregate, e).Some? && ToDocument(org, aggregate, f).Some?
    ensures EventDocuments(org, aggregate, [e, f]).value
            == [ToDocument(org, aggregate, e).value, ToDocument(org, aggregate, f).value]
  {
    hide ToDocument, Printable;
    assert [e, f][..1] == [e] && [e][..0] == [];
    assert EventDocuments(org, aggregate, [e]) != None;
  }

  lemma DocumentFacts(org: Id, aggregate: Id, e: Event)
    requires ToDocument(org, aggregate, e).Some?
    ensures var d := ToDocument(org, aggregate, e).value;
      && d.organizationId == org && d.aggregateId == aggregate && d.eventId == e.eventId && d.occurredAt == e.at
      && d.eventType == EventKindText(KindOf(e))
  {
    hide PayloadFor, OutboxDocument.Valid, EventKindText;
  }

  lemma TwoInserted(outbox: map<Key, OutboxDocument>, org: Id, a: OutboxDocument, b: OutboxDocument)
    requires a.eventId != b.eventId
    ensures WithDocuments(outbox, org, [a, b]) == outbox[(org, a.eventId) := a][(org, b.eventId) := b]
  {
    assert [a, b][..1] == [a] && [a][..0] == [];
    assert WithDocuments(outbox, org, [a]) == WithDocuments(outbox, org, [])[(org, a.eventId) := a];
  }

  /**
   The check of two events: the first decides if it is missing or wrong, then the second; they are
   right under their own identifier, for the reservation, and of the type their place requires.
   */
  lemma ContainsExact(outbox: map<Key, OutboxDocument>, org: Id, reservation: Id, first: Id, second: Id)
    ensures var check := CheckFrom(outbox, org, reservation, [first, second], 0);
      var stored, next := (org, first) in outbox, (org, second) in outbox;
      var right := stored && Addresses(outbox[(org, first)], org, reservation, first)
                   && outbox[(org, first)].eventType == "ReservationCreated";
      var also := next && Addresses(outbox[(org, second)], org, reservation, second)
                  && outbox[(org, second)].eventType in {"ReservationConfirmed", "ReservationApprovalRequested"};
      && (check == Present <==> right && also)
      && (check == Missing <==> !stored || (right && !next))
      && (check == Invalid <==> stored && (!right || (next && !also)))
  {
    var ids := [first, second];
    assert CheckFrom(outbox, org, reservation, ids, 2) == Present;
    assert CheckFrom(outbox, org, reservation, ids, 1)
           == if (org, second) !in outbox then Missing
              else if !Compatible(outbox[(org, second)], org, reservation, second, 1) then Invalid else Present;
  }

  predicate Addresses(d: OutboxDocument, org: Id, reservation: Id, eventId: Id) {
    d.organizationId == org && d.aggregateId == reservation && d.eventId == eventId
  }

  /**
   `persist` on a creation: it commits if and only if the reservation can be stored, both times can
   be printed, and none of the three identifiers is taken; then both events are in the outbox as
   documents that carry them, and nothing else has changed there.
   */
  lemma PersistExact(docs: map<Key, StoredDocument>, docs': map<Key, StoredDocument>, outbox: map<Key, OutboxDocument>,
                     outbox': map<Key, OutboxDocument>, r: ReservationState, createdId: Id, secondId: Id, at: Instant,
                     tokenReadable: bool, outcome: PersistOutcome)
    requires L.IsCreation(r) && at < INT64_MAX && createdId != secondId
    requires PersistedAs(docs, docs', outbox, outbox', r.org, r, CreationEvents(r, createdId, secondId, at),
                         tokenReadable, outcome)
    ensures Committed(outcome) <==>
      && D.Storable(r) && Printable(at) && Printable(at + 1)
      && (r.org, r.id) !in docs && (r.org, createdId) !in outbox && (r.org, secondId) !in outbox
    ensures Committed(outcome) ==>
      && (r.org, createdId) in outbox' && (r.org, secondId) in outbox'
      && outbox' - {(r.org, createdId), (r.org, secondId)} == outbox
      && var events := CreationEvents(r, createdId, secondId, at);
         && Carries(outbox'[(r.org, createdId)], events[0]) && Carries(outbox'[(r.org, secondId)], events[1])
         && outbox'[(r.org, createdId)].status == outbox'[(r.org, secondId)].status == Pending
  {
    hide DecodedBook, EventDocuments, NewDocuments, WithDocuments, ToDocument, CreationEvents, Carries, L.IsCreation,
         Printable;
    var events := CreationEvents(r, createdId, secondId, at);
    CreationDocuments(r, createdId, secondId, at);
    if D.Storable(r) && EventDocuments(r.org, r.id, events).Some? {
      var first, second := ToDocument(r.org, r.id, events[0]).value, ToDocument(r.org, r.id, events[1]).value;
      TwoInserted(outbox, r.org, first, second);
      TwoNew(outbox, r.org, first, second);
    }
  }

  lemma TwoNew(outbox: map<Key, OutboxDocument>, org: Id, a: OutboxDocument, b: OutboxDocument)
    requires a.eventId != b.eventId
    ensures NewDocuments(outbox, org, [a, b]) <==> (org, a.eventId) !in outbox && (org, b.eventId) !in outbox
  {
    assert [a, b][..1] == [a] && [a][..0] == [];
    assert WithDocuments(outbox, org, [a]) == WithDocuments(outbox, org, [])[(org, a.eventId) := a];
    assert NewDocuments(outbox, org, [a]) <==> NewDocuments(outbox, org, []) && (org, a.eventId) !in outbox;
  }

  /** The documents of the two events of a creation, and when there are any. */
  lemma CreationDocuments(r: ReservationState, createdId: Id, secondId: Id, at: Instant)
    requires L.IsCreation(r) && at < INT64_MAX
    ensures var events := CreationEvents(r, createdId, secondId, at);
      var documents := EventDocuments(r.org, r.id, events);
      && |events| == 2 && events == [events[0], events[1]]
      && (documents.Some? <==> PrintableInterval(r.interval) && Printable(at) && Printable(at + 1))
      && (documents.Some? ==>
            && ToDocument(r.org, r.id, events[0]).Some? && ToDocument(r.org, r.id, events[1]).Some?
            && var first, second := ToDocument(r.org, r.id, events[0]).value, ToDocument(r.org, r.id, events[1]).value;
               && documents.value == [first, second] && first.eventId == createdId && second.eventId == secondId
               && Carries(first, events[0]) && Carries(second, events[1]) && first.status == second.status == Pending)
  {
    hide ToDocument, Printable, L.IsCreation, PrintableInterval, Carries, EventKindText;
    var events := CreationEvents(r, createdId, secondId, at);
    L.CreationCarries(r, createdId, secondId, at);
    CreationAccepted(r, createdId, secondId, at, 0);
    CreationAccepted(r, createdId, secondId, at, 1);
    EventRoundTrip(r.org, r.id, events[0]);
    EventRoundTrip(r.org, r.id, events[1]);
    if ToDocument(r.org, r.id, events[0]).Some? { DocumentFacts(r.org, r.id, events[0]); }
    if ToDocument(r.org, r.id, events[1]).Some? { DocumentFacts(r.org, r.id, events[1]); }
    hide CreationEvents;
    TwoWritten(r.org, r.id, events[0], events[1]);
  }

  lemma TwoWritten(org: Id, aggregate: Id, e: Event, f: Event)
    ensures EventDocuments(org, aggregate, [e, f]).Some? <==>
      && ToDocument(org, aggregate, e).Some? && Printable(ToDocument(org, aggregate, e).value.occurredAt)
      && ToDocument(org, aggregate, f).Some? && Printable(ToDocument(org, aggregate, f).value.occurredAt)
    ensures EventDocuments(org, aggregate, [e, f]).Some? ==>
      EventDocuments(org, aggregate, [e, f]).value
      == [ToDocument(org, aggregate, e).value, ToDocument(org, aggregate, f).value]
  {
    hide ToDocument, Printable;
    assert [e, f][..1] == [e] && [e][..0] == [];
    assert EventDocuments(org, aggregate, [e]).Some? <==>
      ToDocument(org, aggregate, e).Some? && Printable(ToDocument(org, aggregate, e).value.occurredAt);
  }

  /** What `persist` stores for a creation, `contains_all` finds, also when the token could not be read. */
  lemma PersistedIsContained(docs: map<Key, StoredDocument>, docs': map<Key, StoredDocument>, outbox: map<Key, OutboxDocument>,
                             outbox': map<Key, OutboxDocument>, r: ReservationState, createdId: Id, secondId: Id, at: Instant,
                             tokenReadable: bool, outcome: PersistOutcome)
    requires at < INT64_MAX && createdId != secondId && Committed(outcome)
    requires PersistedAs(docs, docs', outbox, outbox', r.org, r, CreationEvents(r, createdId, secondId, at),
                         tokenReadable, outcome)
    ensures CheckFrom(outbox', r.org, r.id, [createdId, secondId], 0) == Present
  {
    hide D.Storable, DecodedBook, EventDocuments, NewDocuments, WithDocuments, ToDocument, EventKindText;
    var events := CreationEvents(r, createdId, secondId, at);
    assert events == [events[0], events[1]];
    TwoDocuments(r.org, r.id, events[0], events[1]);
    DocumentFacts(r.org, r.id, events[0]);
    DocumentFacts(r.org, r.id, events[1]);
    var first, second := ToDocument(r.org, r.id, events[0]).value, ToDocument(r.org, r.id, events[1]).value;
    TwoInserted(outbox, r.org, first, second);
    assert CheckFrom(outbox', r.org, r.id, [createdId, secondId], 2) == Present;
    assert CheckFrom(outbox', r.org, r.id, [createdId, secondId], 1) == Present;
  }

  // ----- The creation handler, run alone, between its claim and its completion -----

  datatype CreationResult = Placed(reservation: ReservationState) | NotPlaced(status: CreateStatus) | QueryFailed
    | PersistFailed(outcome: PersistOutcome)

  /** The handler declines, or persists the reservation the schedule decides on with its two events. */
  predicate CreationHandled(docs: map<Key, StoredDocument>, docs': map<Key, StoredDocument>, outbox: map<Key, OutboxDocument>,
                            outbox': map<Key, OutboxDocument>, c: Command, resource: Option<Resource>,
                            tokenReadable: bool, result: CreationResult) {
    var rejected := RejectResource(c, resource);
    if rejected.Some? then result == NotPlaced(rejected.value) && docs' == docs && outbox' == outbox
    else if !PrintableInterval(c.interval) then result == QueryFailed && docs' == docs && outbox' == outbox
    else match DecideCreation(DecodedBook(docs), c, resource)
      case Decline(status) => result == NotPlaced(status) && docs' == docs && outbox' == outbox
      case Insert(r) =>
        && (result == Placed(r) || (result.PersistFailed? && !result.outcome.Persisted?))
        && PersistedAs(docs, docs', outbox, outbox', c.org, r, CreatedEvents(c, resource.value.requiresApproval),
                       tokenReadable, if result.Placed? then Persisted else result.outcome)
  }

  method CreateReservation(store: CreationStore, c: Command, resource: Option<Resource>, tokenReadable: bool)
    returns (result: CreationResult)
    requires store.reservations.Valid()
    modifies store, store.reservations
    ensures store.reservations.Valid()
    ensures CreationHandled(old(store.reservations.docs), store.reservations.docs, old(store.outbox), store.outbox, c,
                            resource, tokenReadable, result)
  {
    hide D.Storable, DecodedBook, DocumentsOk, EvaluateCreation, ToInt32, ConflictingKeys, PersistedAs;
    if resource == None || resource.value.org != c.org { return NotPlaced(ResourceNotFound); }
    var r := resource.value;
    if !r.active { return NotPlaced(ResourceUnavailable); }
    var decision := EvaluateCreation(r, c.interval, c.kind, c.maintenance);
    if decision != ConfirmCreation && decision != AwaitApproval { return NotPlaced(PolicyRejected); }
    var count := store.reservations.ReservedUnitCount(c.org, c.resource, c.interval);
    if count == None { return QueryFailed; }
    if count.value >= ToInt32(r.totalUnits) { return NotPlaced(ScheduleConflict); }
    var reservation: Reservation;
    if r.requiresApproval {
      reservation := Reservation.CreatePendingApproval(c.org, c.ids.reservation, c.resource, c.creator, c.interval,
                                                       c.purpose, c.kind, c.ids.createdEvent, c.ids.approvalEvent, c.at);
    } else {
      reservation := Reservation.CreateConfirmed(c.org, c.ids.reservation, c.resource, c.creator, c.interval,
                                                 c.purpose, c.kind, c.ids.createdEvent, c.ids.confirmedEvent, c.at);
    }
    var events := reservation.ReleaseDomainEvents();
    var outcome := store.Persist(c.org, reservation, events, tokenReadable);
    result := if outcome.Persisted? then Placed(reservation.State()) else PersistFailed(outcome);
  }

  /** The reservation is stored, whether or not the handler gets to know. */
  predicate Stores(result: CreationResult) {
    result.Placed? || (result.PersistFailed? && Committed(result.outcome))
  }

  /** A serialized creation does to the book what the schedule says, or nothing when the store refuses. */
  lemma CreationIsScheduled(docs: map<Key, StoredDocument>, docs': map<Key, StoredDocument>,
                            outbox: map<Key, OutboxDocument>, outbox': map<Key, OutboxDocument>, c: Command,
                            resource: Option<Resource>, tokenReadable: bool, result: CreationResult, nextCas: nat)
    requires CreationHandled(docs, docs', outbox, outbox', c, resource, tokenReadable, result) && DocumentsOk(docs, nextCas)
    ensures Stores(result) ==> DecodedBook(docs') == AfterCreation(DecodedBook(docs), c, resource)
    ensures !Stores(result) ==> docs' == docs && outbox' == outbox
    ensures (c.org, c.ids.reservation) in docs ==>
      !Stores(result) && DecodedBook(docs') == AfterCreation(DecodedBook(docs), c, resource)
  {
    hide D.Storable, RejectResource, DecodedBook, DocumentsOk, EventDocuments, NewDocuments, WithDocuments, CreatedEvents;
    BookKeys(docs, nextCas);
  }
}
