/**
 The reservation repository over stored documents, and the handlers that load an aggregate,
 change it and write it back under its token. Each handler, run alone, does to the decoded
 book of reservations what `Schedule` says.
 */
module ReservationHandlers {
  import opened Wrappers
  import opened Timestamp
  import opened Domain
  import opened Idempotency
  import opened Handlers
  import opened Documents
  import D = ReservationDocuments
  import Q = ScheduleQueries
  import opened Schedule
  import opened ReservationAggregate

  datatype StoredDocument = StoredDocument(doc: D.ReservationDocument, cas: nat)

  datatype Loaded = Loaded(reservation: Reservation, token: nat)

  datatype WriteOutcome = Written | Stale | Refused

  function DecodedBook(docs: map<Key, StoredDocument>): Book {
    map k | k in docs && D.FromDocument(docs[k].doc).Some? :: D.FromDocument(docs[k].doc).value
  }

  /** Every document is one the repository writes, under its own key. */
  predicate DocumentsOk(docs: map<Key, StoredDocument>, nextCas: nat) {
    forall k :: k in docs ==> DocumentOk(k, docs[k], nextCas)
  }

  predicate DocumentOk(k: Key, stored: StoredDocument, nextCas: nat) {
    && Q.Written(stored.doc) && D.FromDocument(stored.doc).Some? && KeyOf(D.FromDocument(stored.doc).value) == k
    && stored.doc.reservationId == k.1 && stored.cas < nextCas
  }

  /** A replace takes effect exactly on a document that still has the expected token. */
  predicate Replaced(docs: map<Key, StoredDocument>, docs': map<Key, StoredDocument>, org: Id, r: ReservationState,
                     token: nat, outcome: WriteOutcome) {
    && (outcome.Refused? <==> r.org != org || !D.Storable(r))
    && (outcome.Written? <==> r.org == org && D.Storable(r) && KeyOf(r) in docs && docs[KeyOf(r)].cas == token)
    && (if outcome.Written? then DecodedBook(docs') == DecodedBook(docs)[KeyOf(r) := r] else docs' == docs)
  }

  predicate Inserted(docs: map<Key, StoredDocument>, docs': map<Key, StoredDocument>, org: Id, r: ReservationState,
                     outcome: WriteOutcome) {
    && (outcome.Refused? <==> r.org != org || !D.Storable(r))
    && (outcome.Written? <==> r.org == org && D.Storable(r) && KeyOf(r) !in docs)
    && (if outcome.Written? then DecodedBook(docs') == DecodedBook(docs)[KeyOf(r) := r] else docs' == docs)
  }

  class ReservationRepository {
    var docs: map<Key, StoredDocument>
    var nextCas: nat

    predicate Valid()
      reads this
    {
      DocumentsOk(docs, nextCas)
    }

    function Contents(): Book
      reads this
    {
      DecodedBook(docs)
    }

    constructor ()
      ensures Valid() && Contents() == map[]
    {
      docs, nextCas := map[], 1;
    }

    /** A fresh aggregate with the token of its document. */
    method FindById(org: Id, id: Id) returns (found: Option<Loaded>)
      requires Valid()
      ensures found.Some? <==> (org, id) in docs
      ensures found.Some? ==>
        && fresh(found.value.reservation) && found.value.reservation.domainEvents == []
        && found.value.token == docs[(org, id)].cas
        && (org, id) in Contents() && found.value.reservation.State() == Contents()[(org, id)]
    {
      if (org, id) !in docs { return None; }
      assert DocumentOk((org, id), docs[(org, id)], nextCas);
      var state := D.FromDocument(docs[(org, id)].doc).value;
      VersionKept(docs[(org, id)].doc);
      var reservation := Reservation.Rehydrate(state);
      found := Some(Loaded(reservation.value, docs[(org, id)].cas));
    }

    /** A conditional replace; an aggregate that cannot be written as a document is refused. */
    method Update(org: Id, reservation: Reservation, token: nat) returns (outcome: WriteOutcome)
      requires Valid()
      modifies this
      ensures Valid()
      ensures Replaced(old(docs), docs, org, old(reservation.State()), token, outcome)
    {
      hide D.ToDocument, D.FromDocument, D.Storable, DocumentOk, DecodedBook;
      var r := reservation.State();
      D.DocumentRoundTrip(r);
      var document := D.ToDocument(r);
      if r.org != org || document == None { return Refused; }
      var key := KeyOf(r);
      if key !in docs || docs[key].cas != token { return Stale; }
      DocumentOfState(r, nextCas);
      BookUpdate(docs, key, StoredDocument(document.value, nextCas));
      DocumentsGrow(docs, nextCas, key, StoredDocument(document.value, nextCas));
      docs := docs[key := StoredDocument(document.value, nextCas)];
      nextCas := nextCas + 1;
      outcome := Written;
    }

    method Insert(org: Id, reservation: Reservation) returns (outcome: WriteOutcome)
      requires Valid()
      modifies this
      ensures Valid()
      ensures Inserted(old(docs), docs, org, old(reservation.State()), outcome)
    {
      hide D.ToDocument, D.FromDocument, D.Storable, DocumentOk, DecodedBook;
      var r := reservation.State();
      D.DocumentRoundTrip(r);
      var document := D.ToDocument(r);
      if r.org != org || document == None { return Refused; }
      var key := KeyOf(r);
      if key in docs { return Stale; }
      DocumentOfState(r, nextCas);
      BookUpdate(docs, key, StoredDocument(document.value, nextCas));
      DocumentsGrow(docs, nextCas, key, StoredDocument(document.value, nextCas));
      docs := docs[key := StoredDocument(document.value, nextCas)];
      nextCas := nextCas + 1;
      outcome := Written;
    }

    /** The query on the stored texts, and what it means for the decoded book. */
    method HasConflictExcluding(org: Id, resource: Id, interval: Interval, excluded: Id) returns (result: Option<bool>)
      requires Valid()
      ensures result == if Printable(interval.start) && Printable(interval.end)
                        then Some(ConflictExcluding(Contents(), org, resource, interval, excluded)) else None
    {
      TimeTextRoundTrip(interval.start);
      TimeTextRoundTrip(interval.end);
      var documents := map k | k in docs :: docs[k].doc;
      result := Q.HasConflictExcluding(documents, org, resource, interval, excluded);
      if Printable(interval.start) && Printable(interval.end) {
        QueryConflict(docs, nextCas, org, resource, interval, excluded);
      }
    }

    method ReservedUnitCount(org: Id, resource: Id, interval: Interval) returns (result: Option<int>)
      requires Valid()
      ensures result == if Printable(interval.start) && Printable(interval.end)
                        then Some(ReservedUnits(Contents(), org, resource, interval)) else None
    {
      TimeTextRoundTrip(interval.start);
      TimeTextRoundTrip(interval.end);
      var documents := map k | k in docs :: docs[k].doc;
      result := Q.ReservedUnitCount(documents, org, resource, interval);
      if Printable(interval.start) && Printable(interval.end) {
        QueryCount(docs, nextCas, org, resource, interval);
      }
    }
  }

  lemma VersionKept(d: D.ReservationDocument)
    requires D.FromDocument(d).Some?
    ensures D.FromDocument(d).value.version != 0
  {
    hide IsTime, TimeValue, StatusFromText, KindFromText;
  }

  /** The document of a storable state is one the repository may hold. */
  lemma DocumentOfState(r: ReservationState, nextCas: nat)
    requires D.Storable(r)
    ensures D.ToDocument(r).Some? && DocumentOk(KeyOf(r), StoredDocument(D.ToDocument(r).value, nextCas), nextCas + 1)
    ensures D.FromDocument(D.ToDocument(r).value) == Some(r)
  {
    hide D.ToDocument, D.FromDocument, D.Storable, Q.Written, Q.Blocks;
    D.DocumentRoundTrip(r);
    Q.RepositoryWrites(r, r.org, r.resource, r.interval);
  }

  lemma BookUpdate(docs: map<Key, StoredDocument>, k: Key, stored: StoredDocument)
    requires D.FromDocument(stored.doc).Some?
    ensures DecodedBook(docs[k := stored]) == DecodedBook(docs)[k := D.FromDocument(stored.doc).value]
  {
    hide D.FromDocument;
  }

  lemma DocumentsGrow(docs: map<Key, StoredDocument>, nextCas: nat, k: Key, stored: StoredDocument)
    requires DocumentsOk(docs, nextCas) && DocumentOk(k, stored, nextCas + 1)
    ensures DocumentsOk(docs[k := stored], nextCas + 1)
  {
    hide D.FromDocument, Q.Written;
    var docs' := docs[k := stored];
    forall j | j in docs'
      ensures DocumentOk(j, docs'[j], nextCas + 1)
    {
      if j != k { assert DocumentOk(j, docs[j], nextCas); }
    }
  }

  lemma QueryConflict(docs: map<Key, StoredDocument>, nextCas: nat, org: Id, resource: Id, interval: Interval, excluded: Id)
    requires DocumentsOk(docs, nextCas) && Printable(interval.start) && Printable(interval.end)
    ensures Q.HasConflictExcluding(map k | k in docs :: docs[k].doc, org, resource, interval, excluded)
            == Some(ConflictExcluding(DecodedBook(docs), org, resource, interval, excluded))
  {
    hide D.FromDocument, Q.Written, Q.HasConflictExcluding, Printable, HasConflict;
    var documents := map k | k in docs :: docs[k].doc;
    var book := DecodedBook(docs);
    forall k | k in docs
      ensures k in book && Q.Written(documents[k]) && book[k].id == documents[k].reservationId
      ensures Q.Blocks(documents[k], org, resource, interval) <==> Conflicting(book[k], org, resource, interval)
    {
      assert DocumentOk(k, docs[k], nextCas);
    }
    Q.ConflictRefines(documents, org, resource, interval, excluded);
    hide Q.Blocks, Conflicting;
    if k :| k in documents && Q.Blocks(documents[k], org, resource, interval) && documents[k].reservationId != excluded {
      assert Conflicting(book[k], org, resource, interval);
    }
    if k :| k in book && Conflicting(book[k], org, resource, interval) && book[k].id != excluded {
      assert Q.Blocks(documents[k], org, resource, interval);
    }
  }

  lemma QueryCount(docs: map<Key, StoredDocument>, nextCas: nat, org: Id, resource: Id, interval: Interval)
    requires DocumentsOk(docs, nextCas) && Printable(interval.start) && Printable(interval.end)
    ensures Q.ReservedUnitCount(map k | k in docs :: docs[k].doc, org, resource, interval)
            == Some(ReservedUnits(DecodedBook(docs), org, resource, interval))
  {
    hide D.FromDocument, Q.Written, Q.ReservedUnitCount, Printable, HasConflict, ToInt32;
    var documents := map k | k in docs :: docs[k].doc;
    var book := DecodedBook(docs);
    forall k | k in docs
      ensures k in book && Q.Written(documents[k])
      ensures Q.Blocks(documents[k], org, resource, interval) <==> Conflicting(book[k], org, resource, interval)
    {
      assert DocumentOk(k, docs[k], nextCas);
    }
    Q.CountRefines(documents, org, resource, interval);
    hide Q.Blocks, Conflicting;
    assert (set k | k in documents && Q.Blocks(documents[k], org, resource, interval))
           == ConflictingKeys(book, org, resource, interval);
  }

  // ----- Handlers -----

  datatype EditResult = Edited(reservation: ReservationState) | NotEdited(status: EditStatus) | RepositoryFailed

  function WriteBack(r: ReservationState): EditResult {
    if D.Storable(r) then Edited(r) else RepositoryFailed
  }

  /** The answer of an edit handler that runs alone; an interval that cannot be printed fails the query. */
  function EditAnswer(book: Book, c: EditCommand): EditResult {
    if (c.org, c.id) !in book then NotEdited(ReservationNotFound)
    else
      var r := book[(c.org, c.id)];
      DecisionsAreEnabled(c, r);
      match Decide(c, r)
      case Refuse(status) => NotEdited(status)
      case Apply(t) => WriteBack(Next(r, t))
      case ApplyUnlessConflict(interval, t) =>
        if !PrintableInterval(interval) then RepositoryFailed
        else if ConflictExcluding(book, c.org, r.resource, interval, c.id) then NotEdited(EditScheduleConflict)
        else WriteBack(Next(r, t))
  }

  predicate EditHandled(book: Book, book': Book, c: EditCommand, result: EditResult) {
    && result == EditAnswer(book, c)
    && book' == if result.Edited? then book[(c.org, c.id) := result.reservation] else book
  }

  /** What a handler does to the book is what the schedule says, or nothing when the repository fails. */
  lemma HandledIsScheduled(book: Book, book': Book, c: EditCommand, result: EditResult)
    requires EditHandled(book, book', c, result)
    ensures result.Edited? ==> DecideEdit(book, c) == Success(result.reservation)
    ensures !result.RepositoryFailed? ==> book' == AfterEdit(book, c)
    ensures result.RepositoryFailed? ==> book' == book
  {
    hide Decide, D.Storable, ConflictExcluding;
  }

  /**
   The repository fails an edit if and only if the edit was decided and the interval it had to ask
   about cannot be printed, or the state it had to write cannot be stored; otherwise the answer is
   what the schedule decides.
   */
  lemma FailureExact(book: Book, c: EditCommand)
    ensures var key: Key := (c.org, c.id);
      EditAnswer(book, c).RepositoryFailed? <==>
        && key in book && !Decide(c, book[key]).Refuse?
        && var d := Decide(c, book[key]);
           || (d.ApplyUnlessConflict? && !(Printable(d.interval.start) && Printable(d.interval.end)))
           || (DecideEdit(book, c).Success? && !D.Storable(DecideEdit(book, c).value))
    ensures !EditAnswer(book, c).RepositoryFailed? ==>
      EditAnswer(book, c) == match DecideEdit(book, c)
                             case Success(r) => Edited(r)
                             case Failure(status) => NotEdited(status)
  {
    hide Decide, D.Storable, ConflictExcluding, Printable, Next, Enabled;
    if (c.org, c.id) in book { DecisionsAreEnabled(c, book[(c.org, c.id)]); }
  }

  /** The loaded aggregate is the one of the book, under the current token. */
  lemma LoadedIdentity(docs: map<Key, StoredDocument>, nextCas: nat, k: Key)
    requires DocumentsOk(docs, nextCas) && k in docs
    ensures k in DecodedBook(docs) && KeyOf(DecodedBook(docs)[k]) == k
  {
    hide D.FromDocument, Q.Written;
    assert DocumentOk(k, docs[k], nextCas);
  }

  lemma BookKeys(docs: map<Key, StoredDocument>, nextCas: nat)
    requires DocumentsOk(docs, nextCas)
    ensures DecodedBook(docs).Keys == docs.Keys
  {
    hide D.FromDocument, Q.Written;
    forall k | k in docs
      ensures k in DecodedBook(docs)
    {
      assert DocumentOk(k, docs[k], nextCas);
    }
  }

  method ApproveReservation(repository: ReservationRepository, c: EditCommand) returns (result: EditResult)
    requires repository.Valid() && c.ApproveCommand?
    modifies repository
    ensures repository.Valid() && EditHandled(old(repository.Contents()), repository.Contents(), c, result)
  {
    hide D.Storable, DocumentsOk, DecodedBook, ConflictExcluding;
    BookKeys(repository.docs, repository.nextCas);
    var found := repository.FindById(c.org, c.id);
    if found == None { return NotEdited(ReservationNotFound); }
    LoadedIdentity(repository.docs, repository.nextCas, (c.org, c.id));
    var reservation := found.value.reservation;
    if reservation.status != PendingApproval { return NotEdited(InvalidState); }
    var conflict := repository.HasConflictExcluding(c.org, reservation.resource, reservation.interval, c.id);
    if conflict == None { return RepositoryFailed; }
    if conflict.value { return NotEdited(EditScheduleConflict); }
    var error := reservation.Approve(c.approver, c.at, c.eventId);
    var outcome := repository.Update(c.org, reservation, found.value.token);
    result := if outcome.Written? then Edited(reservation.State()) else RepositoryFailed;
  }

  method RejectReservation(repository: ReservationRepository, c: EditCommand) returns (result: EditResult)
    requires repository.Valid() && c.RejectCommand?
    modifies repository
    ensures repository.Valid() && EditHandled(old(repository.Contents()), repository.Contents(), c, result)
  {
    hide D.Storable, DocumentsOk, DecodedBook, ConflictExcluding;
    BookKeys(repository.docs, repository.nextCas);
    var found := repository.FindById(c.org, c.id);
    if found == None { return NotEdited(ReservationNotFound); }
    LoadedIdentity(repository.docs, repository.nextCas, (c.org, c.id));
    var reservation := found.value.reservation;
    if reservation.status != PendingApproval { return NotEdited(InvalidState); }
    var error := reservation.Reject(c.rejecter, c.at, c.eventId, c.reason);
    var outcome := repository.Update(c.org, reservation, found.value.token);
    result := if outcome.Written? then Edited(reservation.State()) else RepositoryFailed;
  }

  method CancelReservation(repository: ReservationRepository, c: EditCommand) returns (result: EditResult)
    requires repository.Valid() && c.CancelCommand?
    modifies repository
    ensures repository.Valid() && EditHandled(old(repository.Contents()), repository.Contents(), c, result)
  {
    hide D.Storable, DocumentsOk, DecodedBook, ConflictExcluding;
    BookKeys(repository.docs, repository.nextCas);
    var found := repository.FindById(c.org, c.id);
    if found == None { return NotEdited(ReservationNotFound); }
    LoadedIdentity(repository.docs, repository.nextCas, (c.org, c.id));
    var reservation := found.value.reservation;
    if !c.bypassOwner && reservation.createdBy != c.caller { return NotEdited(CallerNotAuthorized); }
    if IsTerminal(reservation.status) { return NotEdited(InvalidState); }
    var error := reservation.Cancel(c.caller, c.at, c.eventId, c.reason);
    var outcome := repository.Update(c.org, reservation, found.value.token);
    result := if outcome.Written? then Edited(reservation.State()) else RepositoryFailed;
  }

  method ExtendReservation(repository: ReservationRepository, c: EditCommand) returns (result: EditResult)
    requires repository.Valid() && c.ExtendCommand?
    modifies repository
    ensures repository.Valid() && EditHandled(old(repository.Contents()), repository.Contents(), c, result)
  {
    hide D.Storable, DocumentsOk, DecodedBook, ConflictExcluding, EvaluatePolicy;
    BookKeys(repository.docs, repository.nextCas);
    var found := repository.FindById(c.org, c.id);
    if found == None { return NotEdited(ReservationNotFound); }
    LoadedIdentity(repository.docs, repository.nextCas, (c.org, c.id));
    var reservation := found.value.reservation;
    if reservation.createdBy != c.caller { return NotEdited(CallerNotAuthorized); }
    if reservation.status != Confirmed { return NotEdited(InvalidState); }
    if c.interval.start != reservation.interval.start || c.interval.end <= reservation.interval.end {
      return NotEdited(EditPolicyRejected);
    }
    if EvaluatePolicy(c.interval, reservation.kind, true) != NoViolation { return NotEdited(EditPolicyRejected); }
    var conflict := repository.HasConflictExcluding(c.org, reservation.resource, c.interval, c.id);
    if conflict == None { return RepositoryFailed; }
    if conflict.value { return NotEdited(EditScheduleConflict); }
    var error := reservation.Extend(c.interval.end, c.caller, c.at, c.eventId);
    var outcome := repository.Update(c.org, reservation, found.value.token);
    result := if outcome.Written? then Edited(reservation.State()) else RepositoryFailed;
  }
}
