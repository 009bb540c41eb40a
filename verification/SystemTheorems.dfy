/** What the service guarantees after every run: idempotent creation, no lost updates, and a truthful outbox. */
module SystemTheorems {
  import opened Wrappers
  import opened Timestamp
  import opened Domain
  import opened Lifecycle
  import opened Idempotency
  import opened Handlers
  import opened Collections
  import opened World
  import opened StepShapes
  import opened CreationInvariant
  import opened SystemInvariant
  import Steps = CreationSteps
  import History = ReservationHistory
  import Books = OutboxInvariant

  lemma RunParts(actions: seq<Action>)
    ensures var w := Run(actions);
      && CreationInv(w) && History.HistoryInv(w.ledger) && Books.OutboxInv(w.outbox, w.ledger.created)
      && PreparedOk(w.claims.issued)
  {
    hide Inv, CreationInv, History.HistoryInv, Books.OutboxInv, PreparedOk, Run;
    RunKeeps(actions);
    Parts(Run(actions));
  }

  // ----- Idempotent creation -----

  lemma CreatedOwner(w: World, key: ReservationKey)
    requires CreationInv(w) && key in w.ledger.created
    ensures var req := w.ledger.created[key].req;
      && key == KeyOfReservation(req) && req in w.claims.issued && req.documentKey in w.claims.owners
      && w.claims.owners[req.documentKey] == req
  {
    hide RecordsOk, IssuedOk, KeysOk, CreatorsOk, ResponsesOk;
  }

  lemma IssuedAgree(w: World, a: Request, b: Request)
    requires CreationInv(w) && a in w.claims.issued && b in w.claims.issued
    ensures Agree(a, b)
  {
    hide SharedOk, CreatorsOk, ResponsesOk, Agree;
  }

  /** At most one reservation is ever created for an idempotency scope. */
  lemma OneReservationPerScope(actions: seq<Action>, r1: ReservationKey, r2: ReservationKey)
    requires r1 in Run(actions).ledger.created && r2 in Run(actions).ledger.created
    requires var created := Run(actions).ledger.created;
      created[r1].req.cmd.ScopeOf() == created[r2].req.cmd.ScopeOf()
    ensures r1 == r2
  {
    hide Run, CreationInv, History.HistoryInv, Books.OutboxInv, PreparedOk;
    var w := Run(actions);
    RunParts(actions);
    CreatedOwner(w, r1);
    CreatedOwner(w, r2);
    IssuedAgree(w, w.ledger.created[r1].req, w.ledger.created[r2].req);
  }

  /** Reservations are stored exactly under the keys of the creations that committed. */
  lemma StoredAreCreated(actions: seq<Action>)
    ensures var w := Run(actions); w.ledger.reservations.Keys == w.ledger.created.Keys == w.ledger.history.Keys
  {
    hide Run, CreationInv, History.KeyOk, History.EditorsOk, History.AcknowledgementsOk, Books.OutboxInv, PreparedOk;
    RunParts(actions);
  }

  lemma ResponseFacts(w: World, r: Response)
    requires CreationInv(w) && r in w.claims.responses
    ensures r.req in w.claims.issued && ResponseOk(r, SharedOf(w))
  {
    hide SharedOk, KeysOk, CreatorsOk, ResponseOk;
  }

  /**
   All settled answers given for one scope are one answer, however many handlers raced, crashed
   or saw ambiguous errors, and they were given to one payload.
   */
  lemma SettledAnswersAgree(actions: seq<Action>, a: Response, b: Response)
    requires a in Run(actions).claims.responses && b in Run(actions).claims.responses
    requires Definitive(a.outcome) && Definitive(b.outcome) && a.req.cmd.ScopeOf() == b.req.cmd.ScopeOf()
    ensures a.outcome == b.outcome && a.req.cmd.Payload() == b.req.cmd.Payload()
  {
    hide Run, CreationInv, History.HistoryInv, Books.OutboxInv, PreparedOk, Replay;
    var w := Run(actions);
    RunParts(actions);
    ResponseFacts(w, a);
    ResponseFacts(w, b);
    IssuedAgree(w, a.req, b.req);
  }

  /** No handler ever fails but by an error of a store: no conflicting completion, no missing record, no stale identity. */
  lemma OnlyStoreErrors(actions: seq<Action>, r: Response)
    requires r in Run(actions).claims.responses && r.outcome.Threw?
    ensures r.outcome.error == StoreFailure
  {
    hide Run, CreationInv, History.HistoryInv, Books.OutboxInv, PreparedOk;
    RunParts(actions);
    ResponseFacts(Run(actions), r);
  }

  /** An answer with a reservation describes the caller's own request. */
  predicate DescribesRequest(r: ReservationState, req: Request) {
    var c := req.cmd;
    && r.org == c.org && r.creator == c.creator && r.resource == c.resource && r.interval == c.interval
    && r.purpose == c.purpose && r.kind == c.kind && IsCreation(r)
  }

  lemma CreatedDescribes(owner: Request, pending: bool, req: Request)
    requires owner.cmd.Payload() == req.cmd.Payload() && owner.cmd.ScopeOf() == req.cmd.ScopeOf()
    ensures DescribesRequest(Created(owner.cmd, pending), req)
  {
  }

  lemma SettledRecord(w: World, a: Response)
    requires CreationInv(w) && a in w.claims.responses && Definitive(a.outcome)
    ensures var s, k, result := SharedOf(w), a.req.documentKey, a.outcome.result;
      && k in s.owners && k in s.idem && s.owners[k].cmd.Payload() == a.req.cmd.Payload()
      && s.owners[k].cmd.ScopeOf() == a.req.cmd.ScopeOf() && s.owners[k] in w.claims.issued
      && var r := KeyOfReservation(s.owners[k]);
         if result.reservation.Some? then
           r in s.created && s.created[r].req == s.owners[k] && result == ResultOf(s.owners[k], s.created[r].pending)
         else
           r !in s.created && result == RejectedResult(result.status) && IsPermanentRejection(result.status)
  {
    hide CreationInv, SharedOk, Agree;
    ResponseFacts(w, a);
    var s := SharedOf(w);
    Whole(w);
    Steps.ReadRecord(s, w.claims.issued, a.req);
    AgreeMeans(a.req, s.owners[a.req.documentKey]);
    var r := KeyOfReservation(s.owners[a.req.documentKey]);
    if r in s.created {
      CreatedOwner(w, r);
      OneOwner(s, w.claims.issued, s.created[r].req, s.owners[a.req.documentKey]);
    }
  }

  lemma Whole(w: World)
    requires CreationInv(w)
    ensures SharedOk(SharedOf(w), w.claims.issued) && KeysOk(w.claims.issued)
  {
    hide SharedOk, KeysOk, CreatorsOk, ResponsesOk;
  }

  lemma AgreeMeans(a: Request, b: Request)
    requires Agree(a, b) && a.documentKey == b.documentKey
    ensures a.cmd.ScopeOf() == b.cmd.ScopeOf()
    ensures a.fingerprint == b.fingerprint <==> a.cmd.Payload() == b.cmd.Payload()
  {
    hide Encoding.ScopeEncoding, Encoding.RequestEncoding;
  }

  /**
   A settled success describes the caller's request, is the first state of a stored reservation,
   and both creation events of that reservation are in the outbox.
   */
  lemma SettledSuccess(actions: seq<Action>, a: Response)
    requires a in Run(actions).claims.responses && Definitive(a.outcome) && a.outcome.result.reservation.Some?
    ensures var w, r := Run(actions), a.outcome.result.reservation.value;
      var key: ReservationKey := (r.org, r.id);
      && DescribesRequest(r, a.req) && a.outcome.result.createdAt.Some?
      && (a.outcome.result.status.CreatedConfirmed? <==> r.status.Confirmed?)
      && key in w.ledger.reservations && key in w.ledger.history && w.ledger.history[key] != []
      && w.ledger.history[key][0] == r
      && key in w.ledger.created && BothStored(w, key)
  {
    hide Run, CreationInv, History.HistoryInv, Books.OutboxInv, PreparedOk, IsCreation, BothStored, Created;
    var w := Run(actions);
    RunParts(actions);
    SettledRecord(w, a);
    var owner := w.claims.owners[a.req.documentKey];
    var key := KeyOfReservation(owner);
    var pending := w.ledger.created[key].pending;
    CreatedDescribes(owner, pending, a.req);
    Steps.CreatedIdentity(owner.cmd, pending);
    FirstState(w.ledger, key);
    EventsOfCreation(w, key);
  }

  lemma FirstState(l: Ledger, key: ReservationKey)
    requires History.HistoryInv(l) && key in l.created
    ensures key in l.reservations && key in l.history && l.history[key] != []
    ensures l.history[key][0] == Created(l.created[key].req.cmd, l.created[key].pending)
  {
    hide Created, History.Chain, History.EditorsOk, History.AcknowledgementsOk;
    assert History.KeyOk(l, key);
  }

  /** The two creation events are in the outbox as the creation recorded them. */
  predicate BothStored(w: World, key: ReservationKey) {
    key in w.ledger.created &&
    var c := w.ledger.created[key];
    var keys, events := KeysOfEvents(c), CreatedEvents(c.req.cmd, c.pending);
    && keys.0 in w.outbox.entries && Describes(w.outbox.entries[keys.0].doc, key, events[0])
    && keys.1 in w.outbox.entries && Describes(w.outbox.entries[keys.1].doc, key, events[1])
  }

  predicate Describes(entry: OutboxEntry, key: ReservationKey, event: Event) {
    entry.org == key.0 && entry.aggregate == key.1 && entry.event == event
  }

  lemma EventsOfCreation(w: World, key: ReservationKey)
    requires CreationInv(w) && Books.OutboxInv(w.outbox, w.ledger.created) && key in w.ledger.created
    ensures BothStored(w, key)
  {
    hide CreationInv, Books.OutboxInv, CreatedEvents;
    CreatedOwner(w, key);
    Books.StoredEvents(w.outbox, w.ledger.created, key);
    assert KeysOfEvents(w.ledger.created[key]).0 != KeysOfEvents(w.ledger.created[key]).1;
  }

  /** A stored reservation has both its creation events in the outbox: creation is all or nothing. */
  lemma CreationIsAtomic(actions: seq<Action>, key: ReservationKey)
    requires key in Run(actions).ledger.reservations
    ensures key in Run(actions).ledger.created && BothStored(Run(actions), key)
  {
    hide Run, CreationInv, History.HistoryInv, Books.OutboxInv, PreparedOk, BothStored;
    RunParts(actions);
    StoredAreCreated(actions);
    EventsOfCreation(Run(actions), key);
  }

  lemma StartEvents(c: Creation)
    ensures var r, events := Created(c.req.cmd, c.pending), CreatedEvents(c.req.cmd, c.pending);
      var ids := c.req.cmd.ids;
      |events| == 2 && TellsCreation(events[0], events[1], r, ids.createdEvent,
                                     if r.status == PendingApproval then ids.approvalEvent else ids.confirmedEvent,
                                     c.req.cmd.at)
  {
    var r := Created(c.req.cmd, c.pending);
    CreationCarries(r, c.req.cmd.ids.createdEvent, SecondEventId(c.req.cmd, c.pending), c.req.cmd.at);
    hide CreationEvents, TellsCreation;
  }

  /**
   The two stored events of a reservation tell its creation field by field: the state it started in,
   under the identifiers and at the time of the command that created it.
   */
  lemma StoredEventsTell(actions: seq<Action>, key: ReservationKey)
    requires key in Run(actions).ledger.reservations
    ensures key in Run(actions).ledger.created && key in Run(actions).ledger.history && Run(actions).ledger.history[key] != []
    ensures var w, c, r := Run(actions), Run(actions).ledger.created[key], Run(actions).ledger.history[key][0];
      var cmd, keys := c.req.cmd, KeysOfEvents(c);
      var second := if r.status == PendingApproval then cmd.ids.approvalEvent else cmd.ids.confirmedEvent;
      && keys == ((key.0, cmd.ids.createdEvent), (key.0, second)) && keys.0 in w.outbox.entries && keys.1 in w.outbox.entries
      && TellsCreation(w.outbox.entries[keys.0].doc.event, w.outbox.entries[keys.1].doc.event, r, cmd.ids.createdEvent, second,
                       cmd.at)
      && w.outbox.entries[keys.0].doc.org == w.outbox.entries[keys.1].doc.org == key.0
      && w.outbox.entries[keys.0].doc.aggregate == w.outbox.entries[keys.1].doc.aggregate == key.1
  {
    hide Run, CreationInv, History.HistoryInv, Books.OutboxInv, PreparedOk, Created, CreatedEvents, TellsCreation;
    var w := Run(actions);
    RunParts(actions);
    CreationIsAtomic(actions, key);
    FirstState(w.ledger, key);
    CreatedOwner(w, key);
    StartEvents(w.ledger.created[key]);
    StartStatus(w.ledger.created[key]);
  }

  lemma StartStatus(c: Creation)
    ensures Created(c.req.cmd, c.pending).status == if c.pending then PendingApproval else Confirmed
  {
  }

  /** And no event without its reservation. */
  lemma EventsHaveReservations(actions: seq<Action>, key: EventKey)
    requires key in Run(actions).outbox.entries
    ensures var w, entry := Run(actions), Run(actions).outbox.entries[key].doc;
      && (entry.org, entry.aggregate) in w.ledger.reservations && entry.event.eventId == key.1 && entry.org == key.0
      && (entry.event.ReservationCreated? || entry.event.ReservationConfirmed? || entry.event.ReservationApprovalRequested?)
  {
    hide Run, CreationInv, History.HistoryInv, Books.EventsStored, Books.TrafficOk, Books.PublishersOk, PreparedOk;
    RunParts(actions);
    StoredAreCreated(actions);
    var w := Run(actions);
    var entry := w.outbox.entries[key].doc;
    assert Books.EntryOk(key, entry, w.ledger.created);
    EventOfCreation(w.ledger.created[(key.0, entry.aggregate)], key, entry);
  }

  lemma EventOfCreation(c: Creation, key: EventKey, entry: OutboxEntry)
    requires Books.EntryOf(c, key, entry)
    ensures entry.event.eventId == key.1 && entry.org == key.0
    ensures entry.event.ReservationCreated? || entry.event.ReservationConfirmed? || entry.event.ReservationApprovalRequested?
  {
  }

  /** A settled rejection is permanent and there is no reservation for its scope. */
  lemma SettledRejection(actions: seq<Action>, a: Response, key: ReservationKey)
    requires a in Run(actions).claims.responses && Definitive(a.outcome) && a.outcome.result.reservation == None
    ensures IsPermanentRejection(a.outcome.result.status)
    ensures var created := Run(actions).ledger.created;
      key in created ==> created[key].req.cmd.ScopeOf() != a.req.cmd.ScopeOf()
  {
    hide Run, CreationInv, History.HistoryInv, Books.OutboxInv, PreparedOk;
    var w := Run(actions);
    RunParts(actions);
    SettledRecord(w, a);
    if key in w.ledger.created && w.ledger.created[key].req.cmd.ScopeOf() == a.req.cmd.ScopeOf() {
      CreatedOwner(w, key);
      ResponseFacts(w, a);
      IssuedAgree(w, w.ledger.created[key].req, a.req);
    }
  }

  /** A record completed as failed has no reservation under its identifiers; one completed as succeeded has its own. */
  lemma RecordsAndReservations(actions: seq<Action>, k: string)
    requires k in Run(actions).claims.idem
    ensures var record, reservations := Run(actions).claims.idem[k].doc, Run(actions).ledger.reservations;
      && (record.status.FailedPermanent? ==> (record.scope.org, record.ids.reservation) !in reservations)
      && (record.status.Succeeded? ==> (record.scope.org, record.ids.reservation) in reservations)
      && (record.status.Processing? <==> record.result == None)
  {
    hide Run, CreationInv, History.HistoryInv, Books.OutboxInv, PreparedOk, SnapshotOf, IssuedOk, CreatedOk;
    var w := Run(actions);
    RunParts(actions);
    StoredAreCreated(actions);
    Whole(w);
    assert RecordOk(w.claims.idem[k].doc, w.claims.owners[k], w.ledger.created);
  }

  // ----- Recovery -----

  /** What recovery answers, or continues with, when the stores work. */
  function Recovered(w: World, pid: nat, req: Request, record: Record): World {
    var key: ReservationKey := (record.scope.org, record.ids.reservation);
    if key !in w.ledger.reservations then FinishCreator(w, pid, req, Returned(RejectedResult(IdempotencyInProgress)))
    else if |Past(w.ledger.history, key)| > 1 then FinishCreator(w, pid, req, Returned(RejectedResult(IdempotencyConflict)))
    else MoveCreator(w, pid, req, CheckingEvents(record, w.ledger.reservations[key].doc, false))
  }

  lemma RecoverStep(w: World, pid: nat, req: Request, record: Record)
    requires Inv(w) && Steps.Runs(w, pid, req, Recovering(record))
    ensures StepRecover(w, pid, req, record, Works) == Recovered(w, pid, req, record)
  {
    hide Inv, CreationInv, History.HistoryInv, Books.OutboxInv, PreparedOk, MatchesOriginal, FinishCreator, MoveCreator,
         SharedOk, KeysOk, ProcessingRecord, Created;
    Parts(w);
    Steps.LedgerKeys(w.ledger);
    HistoryKeys(w.ledger);
    Steps.Now(w, pid, req, Recovering(record));
    Steps.OwnerOf(SharedOf(w), w.claims.issued, req, record);
    var owner := w.claims.owners[req.documentKey];
    var key := KeyOfReservation(owner);
    if key in w.ledger.reservations {
      Steps.LoadedMatches(w.ledger, owner, req.cmd);
      HistoryMatches(w.ledger, key, owner, req.cmd);
    }
  }

  /**
   With working stores, recovery answers in progress if nothing is stored under the record's
   identifiers, a conflict if the stored reservation has been edited, and goes on otherwise.
   */
  lemma RecoveryAnswers(actions: seq<Action>, pid: nat, resource: Option<Resource>, count: int)
    requires pid in Run(actions).claims.creators && Run(actions).claims.creators[pid].pc.Recovering?
    ensures var w, c := Run(actions), Run(actions).claims.creators[pid];
      CreatorStep(w, pid, Works, resource, count) == Recovered(w, pid, c.req, c.pc.record)
  {
    hide Run, Inv, Recovered, StepRecover;
    RunKeeps(actions);
    var c := Run(actions).claims.creators[pid];
    RecoverStep(Run(actions), pid, c.req, c.pc.record);
  }

  lemma HistoryMatches(l: Ledger, key: ReservationKey, owner: Request, cmd: Command)
    requires History.HistoryInv(l) && key in l.created && l.created[key].req == owner
    requires cmd.Payload() == owner.cmd.Payload()
    ensures key in l.reservations && key in l.history && l.history[key] != []
    ensures MatchesOriginal(l.reservations[key].doc, ProcessingRecord(owner), cmd) <==> |l.history[key]| == 1
  {
    hide MatchesOriginal, History.Chain, History.EditorsOk, History.AcknowledgementsOk, Created, ProcessingRecord;
    assert History.KeyOk(l, key);
    History.RecoveryExact(key, l.history[key], owner, l.created[key].pending, cmd);
  }

  /** The step that checks a creation event finds it: it goes on to the next one, or to completing the record. */
  predicate EventsFound(w: World, w': World, pid: nat, req: Request, pc: CreatePc)
    requires pc.CheckingEvents?
  {
    if !pc.second then w' == MoveCreator(w, pid, req, CheckingEvents(pc.record, pc.loaded, true))
    else
      var k := req.documentKey;
      && k in w.claims.owners && KeyOfReservation(w.claims.owners[k]) in w.ledger.created
      && var owner, pending := w.claims.owners[k], w.ledger.created[KeyOfReservation(w.claims.owners[k])].pending;
         w' == MoveCreator(w, pid, req, CompletionRead(Completion(pc.record.scope, pc.record.fingerprint,
                                                                  SnapshotOf(owner, pending), true,
                                                                  ResultOf(owner, pending))))
  }

  lemma CheckStep(w: World, pid: nat, req: Request, record: Record, loaded: ReservationState, second: bool)
    requires Inv(w) && Steps.Runs(w, pid, req, CheckingEvents(record, loaded, second))
    ensures EventsFound(w, StepCheckEvent(w, pid, req, record, loaded, second, Works), pid, req,
                        CheckingEvents(record, loaded, second))
  {
    hide Inv, CreationInv, History.HistoryInv, Books.OutboxInv, PreparedOk, SharedOk, KeysOk, Created, IsCreationEvent,
         ExpectedEventIds, SnapshotOf, SnapshotFor, SuccessResult, MoveCreator, FinishCreator;
    Parts(w);
    Steps.Now(w, pid, req, CheckingEvents(record, loaded, second));
    Steps.OwnerOf(SharedOf(w), w.claims.issued, req, record);
    var owner := w.claims.owners[req.documentKey];
    var creation := w.ledger.created[KeyOfReservation(owner)];
    Steps.EventFound(w.outbox, w.ledger.created, creation, second);
    Steps.ExpectedId(creation, second);
    Steps.OwnSnapshot(owner, creation.pending);
  }

  /** Once the reservation matches, its creation events are always found, as the right events. */
  lemma RecoveryFindsEvents(actions: seq<Action>, pid: nat, resource: Option<Resource>, count: int)
    requires pid in Run(actions).claims.creators && Run(actions).claims.creators[pid].pc.CheckingEvents?
    ensures var w, c := Run(actions), Run(actions).claims.creators[pid];
      EventsFound(w, CreatorStep(w, pid, Works, resource, count), pid, c.req, c.pc)
  {
    hide Run, Inv, EventsFound, StepCheckEvent;
    RunKeeps(actions);
    var c := Run(actions).claims.creators[pid];
    CheckStep(Run(actions), pid, c.req, c.pc.record, c.pc.loaded, c.pc.second);
  }

  // ----- What never changes again -----

  /** Later states keep terminal records, owners and answers. */
  ghost predicate ClaimsLater(c: Claims, c': Claims) {
    && (forall k :: k in c.idem ==> k in c'.idem && (!c.idem[k].doc.status.Processing? ==> c'.idem[k] == c.idem[k]))
    && (forall k :: k in c.owners ==> k in c'.owners && c'.owners[k] == c.owners[k])
    && c.responses <= c'.responses
  }

  /** Later states extend every history and keep every creation and acknowledged edit. */
  ghost predicate LedgerLater(l: Ledger, l': Ledger) {
    && (forall key :: key in l.created ==> key in l'.created && l'.created[key] == l.created[key])
    && (forall key :: key in l.history ==> key in l'.history && l.history[key] <= l'.history[key])
    && l.acknowledged <= l'.acknowledged
  }

  /** Later states keep every event, every published entry, and what the broker acknowledged. */
  ghost predicate OutboxLater(o: Outbox, o': Outbox) {
    forall key :: key in o.entries ==>
      && key in o'.entries && o'.entries[key].doc.event == o.entries[key].doc.event
      && (o.entries[key].doc.status.Published? ==> o'.entries[key] == o.entries[key])
  }

  ghost predicate Later(w: World, w': World) {
    ClaimsLater(w.claims, w'.claims) && LedgerLater(w.ledger, w'.ledger) && OutboxLater(w.outbox, w'.outbox)
  }

  lemma LaterTransitive(a: World, b: World, c: World)
    requires Later(a, b) && Later(b, c)
    ensures Later(a, c)
  {
    forall key | key in a.ledger.history
      ensures key in c.ledger.history && a.ledger.history[key] <= c.ledger.history[key]
    {
      assert a.ledger.history[key] <= b.ledger.history[key] <= c.ledger.history[key];
    }
  }

  lemma ClaimingLater(w: World, pid: nat, req: Request, io: Io)
    requires w.claims.idem.Keys == w.claims.owners.Keys
    ensures ClaimsLater(w.claims, StepClaim(w, pid, req, io).claims)
  {
    hide ProcessingRecord, InsertRecord, ClaimsLater, Effective;
    ReadsLater(w, w, pid, req);
    if req.documentKey !in w.claims.idem {
      InsertLater(w.claims, req);
      ReadsLater(w, w.(claims := InsertRecord(w.claims, req)), pid, req);
    }
  }

  lemma InsertLater(c: Claims, req: Request)
    requires c.idem.Keys == c.owners.Keys && req.documentKey !in c.idem
    ensures ClaimsLater(c, InsertRecord(c, req))
  {
    hide ProcessingRecord;
  }

  lemma ReadsLater(w: World, w1: World, pid: nat, req: Request)
    requires w1 == w || ClaimsLater(w.claims, w1.claims)
    ensures forall pc :: ClaimsLater(w.claims, MoveCreator(w1, pid, req, pc).claims)
    ensures forall outcome :: ClaimsLater(w.claims, FinishCreator(w1, pid, req, outcome).claims)
  {
  }

  lemma CompletionWriteLater(w: World, pid: nat, req: Request, c: Completion, record: Record, cas: nat, io: Io)
    requires CreatorOk(Creator(req, CompletionWrite(c, record, cas)), SharedOf(w))
    ensures ClaimsLater(w.claims, StepCompletionWrite(w, pid, req, c, record, cas, io).claims)
  {
    hide ProcessingRecord, CompletedRecord, SnapshotOf, ResultOf, RejectedResult;
  }

  lemma WritingLater(w: World, pid: nat, io: Io, resource: Option<Resource>, count: int)
    requires pid in w.claims.creators && CreatorOk(w.claims.creators[pid], SharedOf(w))
    requires w.claims.creators[pid].pc.Claiming? || w.claims.creators[pid].pc.CompletionWrite?
    requires w.claims.idem.Keys == w.claims.owners.Keys
    ensures ClaimsLater(w.claims, CreatorStep(w, pid, io, resource, count).claims)
  {
    hide ClaimsLater, StepClaim, StepCompletionWrite, CreatorOk;
    var req := w.claims.creators[pid].req;
    var pc := w.claims.creators[pid].pc;
    if pc.Claiming? {
      ClaimingLater(w, pid, req, io);
    } else {
      CompletionWriteLater(w, pid, req, pc.completion, pc.record, pc.cas, io);
    }
  }

  /** Most steps change no record. */
  predicate OnlyAnswers(c: Claims, c': Claims) {
    c'.idem == c.idem && c'.owners == c.owners && c.responses <= c'.responses
  }

  lemma AnswersLater(c: Claims, c': Claims)
    requires OnlyAnswers(c, c')
    ensures ClaimsLater(c, c')
  {
  }

  lemma StepAnswers(w: World, pid: nat, io: Io, resource: Option<Resource>, count: int)
    requires pid in w.claims.creators && !w.claims.creators[pid].pc.Claiming? && !w.claims.creators[pid].pc.CompletionWrite?
    ensures OnlyAnswers(w.claims, CreatorStep(w, pid, io, resource, count).claims)
  {
    hide CreatorStep;
    StepFramed(w, pid, io, resource, count);
  }

  lemma OwnedKeys(w: World)
    requires Inv(w)
    ensures w.claims.idem.Keys == w.claims.owners.Keys
  {
    hide RecordOk, IssuedOk, CreatedOk, KeysOk, CreatorsOk, ResponsesOk, History.HistoryInv, Books.OutboxInv, PreparedOk;
  }

  lemma CreatorClaimsLater(w: World, pid: nat, io: Io, resource: Option<Resource>, count: int)
    requires Inv(w)
    ensures ClaimsLater(w.claims, CreatorStep(w, pid, io, resource, count).claims)
  {
    hide ClaimsLater, CreatorOk, KeysOk, SharedOk, ResponsesOk, History.HistoryInv, Books.OutboxInv, PreparedOk;
    if pid !in w.claims.creators {
      AnswersLater(w.claims, w.claims);
    } else {
      hide CreatorStep;
      var pc, c' := w.claims.creators[pid].pc, CreatorStep(w, pid, io, resource, count).claims;
      if pc.Claiming? || pc.CompletionWrite? {
        OwnedKeys(w);
        WritingLater(w, pid, io, resource, count);
      } else {
        StepAnswers(w, pid, io, resource, count);
        AnswersLater(w.claims, c');
      }
    }
  }

  lemma CreatorLater(w: World, pid: nat, io: Io, resource: Option<Resource>, count: int)
    requires Inv(w)
    ensures Later(w, CreatorStep(w, pid, io, resource, count))
  {
    hide Inv, ClaimsLater, StepPersist;
    CreatorClaimsLater(w, pid, io, resource, count);
    if pid in w.claims.creators {
      var pc := w.claims.creators[pid].pc;
      if pc.Persisting? {
        PersistLater(w, pid, w.claims.creators[pid].req, pc.pending, io);
      } else {
        hide CreatorStep;
        CreatorFrame(w, pid, io, resource, count);
      }
    }
  }

  lemma PersistLater(w: World, pid: nat, req: Request, pending: bool, io: Io)
    requires Inv(w)
    ensures var w' := StepPersist(w, pid, req, pending, io);
      LedgerLater(w.ledger, w'.ledger) && OutboxLater(w.outbox, w'.outbox)
  {
    hide CreationInv, History.HistoryInv, Books.OutboxInv, PreparedOk, StepPersist, Created, NewEntry, CreatedEvents,
         KeysOfEvents;
    PersistFrame(w, pid, req, pending, io);
    Steps.LedgerKeys(w.ledger);
    HistoryKeys(w.ledger);
  }

  lemma HistoryKeys(l: Ledger)
    requires History.HistoryInv(l)
    ensures l.reservations.Keys == l.history.Keys
  {
    hide History.KeyOk, History.EditorsOk, History.AcknowledgementsOk;
  }

  lemma EditorLater(l: Ledger, pid: nat, io: Io, conflict: bool)
    ensures LedgerLater(l, EditorStep(l, pid, io, conflict))
  {
    hide StepLoad, StepWrite, LedgerLater;
    EditorsLater(l, l.(editors := EditorStep(l, pid, io, conflict).editors));
    if pid in l.editors {
      var cmd := l.editors[pid].cmd;
      LoadLater(l, pid, cmd, (cmd.org, cmd.id), io);
      var pc := l.editors[pid].pc;
      if pc.Writing? { WriteLater(l, pid, (cmd.org, cmd.id), pc.loaded, pc.token, pc.transition, io); }
    }
  }

  lemma EditorsLater(l: Ledger, l': Ledger)
    requires l' == l.(editors := l'.editors)
    ensures LedgerLater(l, l')
  {
  }

  lemma LoadLater(l: Ledger, pid: nat, cmd: EditCommand, key: ReservationKey, io: Io)
    ensures LedgerLater(l, StepLoad(l, pid, cmd, key, io))
  {
    hide Decide, LedgerLater;
    EditorsLater(l, StepLoad(l, pid, cmd, key, io));
  }

  lemma WriteLater(l: Ledger, pid: nat, key: ReservationKey, loaded: ReservationState, token: nat, t: Transition, io: Io)
    ensures LedgerLater(l, StepWrite(l, pid, key, loaded, token, t, io))
  {
    hide Enabled, Next;
  }

  lemma PublisherLater(o: Outbox, pid: nat, io: Io, delivery: Delivery, now: Instant, created: map<ReservationKey, Creation>)
    requires Books.OutboxInv(o, created)
    ensures OutboxLater(o, PublisherStep(o, pid, io, delivery, now))
  {
    hide Books.OutboxInv, PublisherStep, NextAttempt;
    forall key | key in o.entries
      ensures Books.Moves(o, PublisherStep(o, pid, io, delivery, now), key, now)
    {
      Books.EntrySteps(o, pid, io, delivery, now, created, key);
    }
  }

  lemma CreateLater(w: World, a: Action)
    requires Inv(w) && (a.SubmitCreate? || a.StepCreate? || a.CrashCreate?)
    ensures Later(w, Act(w, a))
  {
    hide Inv, CreatorStep, Prepare, Fresh;
    match a
    case StepCreate(pid, io, resource, count) => CreatorLater(w, pid, io, resource, count);
    case _ =>
  }

  lemma EditLater(w: World, a: Action)
    requires a.SubmitEdit? || a.StepEdit? || a.CrashEdit?
    ensures Later(w, Act(w, a))
  {
    hide EditorStep;
    match a
    case StepEdit(pid, io, conflict) => EditorLater(w.ledger, pid, io, conflict);
    case _ =>
  }

  lemma PublishLater(w: World, a: Action)
    requires Inv(w) && (a.BeginCycle? || a.StepPublish? || a.CrashPublish?)
    ensures Later(w, Act(w, a))
  {
    hide Inv, Act, PublisherStep, ClaimsLater, LedgerLater, OutboxLater;
    PublishFrame(w, a);
    SameLater(w, Act(w, a));
    if a.StepPublish? {
      Parts(w);
      PublisherLater(w.outbox, a.pid, a.io, a.delivery, a.now, w.ledger.created);
    }
  }

  lemma PublishFrame(w: World, a: Action)
    requires a.BeginCycle? || a.StepPublish? || a.CrashPublish?
    ensures Act(w, a).claims == w.claims && Act(w, a).ledger == w.ledger
    ensures if a.StepPublish? then Act(w, a).outbox == PublisherStep(w.outbox, a.pid, a.io, a.delivery, a.now)
            else Act(w, a).outbox.entries == w.outbox.entries
  {
    hide CreatorStep, EditorStep, PublisherStep, Prepare, Fresh;
  }

  lemma SameLater(w: World, w': World)
    ensures w'.claims == w.claims ==> ClaimsLater(w.claims, w'.claims)
    ensures w'.ledger == w.ledger ==> LedgerLater(w.ledger, w'.ledger)
    ensures w'.outbox.entries == w.outbox.entries ==> OutboxLater(w.outbox, w'.outbox)
  {
  }

  lemma ActLater(w: World, a: Action)
    requires Inv(w)
    ensures Later(w, Act(w, a))
  {
    hide Inv, Later, Act;
    match a
    case SubmitCreate(_, _) => CreateLater(w, a);
    case StepCreate(_, _, _, _) => CreateLater(w, a);
    case CrashCreate(_) => CreateLater(w, a);
    case SubmitEdit(_, _) => EditLater(w, a);
    case StepEdit(_, _, _) => EditLater(w, a);
    case CrashEdit(_) => EditLater(w, a);
    case BeginCycle(_, _) => PublishLater(w, a);
    case StepPublish(_, _, _, _) => PublishLater(w, a);
    case CrashPublish(_) => PublishLater(w, a);
  }

  /** Whatever happens later, terminal records, answers, creations, histories and published events stay. */
  lemma {:induction false} RunLater(actions: seq<Action>, more: seq<Action>)
    ensures Later(Run(actions), Run(actions + more))
    decreases |more|
  {
    hide Later, Inv, Act;
    if more == [] {
      assert actions + more == actions;
      LaterReflexive(Run(actions));
    } else {
      var n := |more| - 1;
      RunLater(actions, more[..n]);
      RunKeeps(actions + more[..n]);
      ActLater(Run(actions + more[..n]), more[n]);
      assert (actions + more)[..|actions + more| - 1] == actions + more[..n];
      LaterTransitive(Run(actions), Run(actions + more[..n]), Run(actions + more));
    }
  }

  lemma LaterReflexive(w: World)
    ensures Later(w, w)
  {
  }

  // ----- Edits -----

  /**
   Every state a stored reservation ever had follows from its creation by single handler
   decisions; versions count them, terminal states end the history, the store holds its end,
   and no state is both approved and rejected.
   */
  lemma NoLostUpdates(actions: seq<Action>, key: ReservationKey, i: nat)
    requires var l := Run(actions).ledger; key in l.reservations && key in l.history && i < |l.history[key]|
    ensures var l, h := Run(actions).ledger, Run(actions).ledger.history[key];
      && h[|h| - 1] == l.reservations[key].doc && IsCreation(h[0]) && (h[0].org, h[0].id) == key
      && SameIdentity(h[0], h[i]) && h[i].version == 1 + i
      && !(h[i].approval.Some? && h[i].rejection.Some?) && (h[i].rejection.Some? <==> h[i].status.Rejected?)
      && (i + 1 < |h| ==> History.OneEdit(key, h[i], h[i + 1]) && !IsTerminal(h[i].status))
  {
    hide Run, CreationInv, Books.OutboxInv, PreparedOk, Created, History.EditorsOk, History.AcknowledgementsOk,
         History.OneEdit, SameIdentity;
    var w := Run(actions);
    RunParts(actions);
    assert History.KeyOk(w.ledger, key);
    History.StartIsCreation(w.ledger.created[key]);
    History.HistoryDeparts(key, w.ledger.history[key], i);
    History.HistoryVersions(key, w.ledger.history[key], i);
    Steps.CreatedIdentity(w.ledger.created[key].req.cmd, w.ledger.created[key].pending);
  }

  /** An edit reported as done is in the history, directly after the state it was decided on. */
  lemma AcknowledgedEditsStay(actions: seq<Action>, more: seq<Action>, a: Acknowledgement)
    requires a in Run(actions).ledger.acknowledged
    ensures var l := Run(actions + more).ledger; a.key in l.history && History.Follows(l.history[a.key], a.before, a.after)
  {
    hide Run, CreationInv, Books.OutboxInv, PreparedOk, History.LedgerOk, History.EditorsOk, History.Follows;
    RunLater(actions, more);
    RunParts(actions + more);
    assert History.AcknowledgedOk(a, Run(actions + more).ledger);
  }

  // ----- The outbox -----

  /** What is marked published was acknowledged by the broker; sends never outnumber claims, which `attempts` counts on 32 bits. */
  lemma OutboxIsTruthful(actions: seq<Action>, key: EventKey)
    requires key in Run(actions).outbox.entries
    ensures var o, entry := Run(actions).outbox, Run(actions).outbox.entries[key].doc;
      && (entry.status.Published? ==> key in o.delivered) && (entry.status.Published? <==> entry.publishedAt.Some?)
      && (key in o.delivered ==> key in o.sent && o.sent[key] > 0)
      && entry.attempts == |TokensOf(o.grants, key)| % 0x1_0000_0000
      && (key in o.sent ==> o.sent[key] <= |TokensOf(o.grants, key)|)
      && (key in o.sent && |TokensOf(o.grants, key)| < 0x1_0000_0000 ==> o.sent[key] <= entry.attempts)
  {
    hide Run, CreationInv, History.HistoryInv, Books.EntriesOk, Books.EventsStored, Books.PublishersOk, PreparedOk;
    RunParts(actions);
    TrafficMeans(Run(actions).outbox, key);
  }

  lemma TrafficMeans(o: Outbox, key: EventKey)
    requires Books.TrafficOk(o) && key in o.entries
    ensures o.entries[key].doc.status.Published? ==> key in o.delivered
    ensures o.entries[key].doc.status.Published? <==> o.entries[key].doc.publishedAt.Some?
    ensures o.entries[key].doc.attempts == |TokensOf(o.grants, key)| % 0x1_0000_0000
    ensures key in o.sent ==> o.sent[key] <= |TokensOf(o.grants, key)|
    ensures key in o.delivered ==> key in o.sent && o.sent[key] > 0
  {
    assert Books.StatusOk(o, key);
    if key in o.calls {
      SubsetSize(o.calls[key], TokensOf(o.grants, key));
    }
  }

  /** At most one publisher holds the token under which an entry is being published. */
  lemma OneLivePublisher(actions: seq<Action>, p: nat, q: nat, key: EventKey)
    requires var o := Run(actions).outbox;
      && p in o.publishers && q in o.publishers && key in o.entries
      && Books.Held(o.publishers[p].pc) == Some(o.entries[key].cas) == Books.Held(o.publishers[q].pc)
    ensures p == q
  {
    hide Run, CreationInv, History.HistoryInv, Books.EntriesOk, Books.EventsStored, Books.TrafficOk, Books.PublisherOk,
         PreparedOk;
    RunParts(actions);
    var o := Run(actions).outbox;
    var apart := Books.HoldApart(o.publishers[p], o.publishers[q]);
  }

  /** Once published, always published, with the same document. */
  lemma PublishedStays(actions: seq<Action>, more: seq<Action>, key: EventKey)
    requires key in Run(actions).outbox.entries && Run(actions).outbox.entries[key].doc.status.Published?
    ensures key in Run(actions + more).outbox.entries
    ensures Run(actions + more).outbox.entries[key] == Run(actions).outbox.entries[key]
  {
    hide Run, ClaimsLater, LedgerLater;
    RunLater(actions, more);
  }

  /** Once an idempotency record is terminal, its status and result never change. */
  lemma TerminalRecordsStay(actions: seq<Action>, more: seq<Action>, k: string)
    requires k in Run(actions).claims.idem && !Run(actions).claims.idem[k].doc.status.Processing?
    ensures k in Run(actions + more).claims.idem
    ensures Run(actions + more).claims.idem[k] == Run(actions).claims.idem[k]
  {
    hide Run, LedgerLater, OutboxLater;
    RunLater(actions, more);
  }
}
