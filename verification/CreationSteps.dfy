/** Every step of every creation handler keeps the creation invariant. */
module CreationSteps {
  import opened Wrappers
  import opened Timestamp
  import opened Domain
  import opened Encoding
  import opened Idempotency
  import opened Handlers
  import opened World
  import opened CreationInvariant
  import History = ReservationHistory
  import Books = OutboxInvariant

  predicate Runs(w: World, pid: nat, req: Request, pc: CreatePc) {
    pid in w.claims.creators && w.claims.creators[pid] == Creator(req, pc)
  }

  /** Only stores differ, and only by what one step for `req` may change. */
  predicate StoreStep(w: World, w': World, req: Request, change: Change) {
    && Changes(SharedOf(w), SharedOf(w'), req, change)
    && w'.claims.creators == w.claims.creators && w'.claims.issued == w.claims.issued
    && w'.claims.responses == w.claims.responses
  }

  lemma OthersKept(w: World, w': World, pid: nat, req: Request, pc: CreatePc, change: Change)
    requires CreationInv(w) && Runs(w, pid, req, pc) && StoreStep(w, w', req, change)
    ensures SharedOk(SharedOf(w'), w.claims.issued) && ResponsesOk(w.claims.responses, w.claims.issued, SharedOf(w'))
    ensures forall p :: p in w.claims.creators && p != pid ==> CreatorOk(w.claims.creators[p], SharedOf(w'))
  {
    hide CreatorOk, SharedOk, Changes, ResponseOk, KeysOk, SharedOf;
    var s, s', c := SharedOf(w), SharedOf(w'), w.claims;
    assert CreatorsOk(c.creators, s, c.issued);
    SharedSurvives(s, s', c.issued, req, change);
    forall p | p in c.creators && p != pid
      ensures CreatorOk(c.creators[p], s')
    {
      CreatorSurvives(s, s', c.issued, req, change, c.creators[p]);
    }
    forall r | r in c.responses
      ensures r.req in c.issued && ResponseOk(r, s')
    {
      ResponseSurvives(s, s', c.issued, req, change, r);
    }
  }

  lemma Finished(w: World, w': World, pid: nat, req: Request, pc: CreatePc, change: Change, outcome: Outcome)
    requires CreationInv(w) && Runs(w, pid, req, pc) && StoreStep(w, w', req, change)
    requires ResponseOk(Response(req, outcome), SharedOf(w'))
    ensures CreationInv(FinishCreator(w', pid, req, outcome))
  {
    hide CreatorOk, SharedOk, Changes, ResponseOk, KeysOk;
    OthersKept(w, w', pid, req, pc, change);
    assert SharedOf(FinishCreator(w', pid, req, outcome)) == SharedOf(w');
  }

  lemma Moved(w: World, w': World, pid: nat, req: Request, pc: CreatePc, change: Change, next: CreatePc)
    requires CreationInv(w) && Runs(w, pid, req, pc) && StoreStep(w, w', req, change)
    requires CreatorOk(Creator(req, next), SharedOf(w'))
    ensures CreationInv(MoveCreator(w', pid, req, next))
  {
    hide CreatorOk, SharedOk, Changes, ResponseOk, KeysOk;
    OthersKept(w, w', pid, req, pc, change);
    assert SharedOf(MoveCreator(w', pid, req, next)) == SharedOf(w');
  }

  /** A step that changes no store and fails on one. */
  lemma Fails(w: World, pid: nat, req: Request, pc: CreatePc)
    requires CreationInv(w) && Runs(w, pid, req, pc)
    ensures CreationInv(FinishCreator(w, pid, req, Threw(StoreFailure)))
  {
    hide CreationInv;
    Finished(w, w, pid, req, pc, Unrelated, Threw(StoreFailure));
  }

  lemma Now(w: World, pid: nat, req: Request, pc: CreatePc)
    requires CreationInv(w) && Runs(w, pid, req, pc)
    ensures CreatorOk(Creator(req, pc), SharedOf(w)) && req in w.claims.issued
    ensures SharedOk(SharedOf(w), w.claims.issued) && KeysOk(w.claims.issued)
  {
    hide CreatorOk, SharedOk, KeysOk;
  }

  // ----- Claiming -----

  lemma ClaimKeeps(w: World, pid: nat, req: Request, io: Io)
    requires CreationInv(w) && Runs(w, pid, req, Claiming)
    ensures CreationInv(StepClaim(w, pid, req, io))
  {
    hide CreationInv, SharedOk, KeysOk, MoveCreator, FinishCreator, ProcessingRecord, RecordOk;
    Now(w, pid, req, Claiming);
    Fails(w, pid, req, Claiming);
    Moved(w, w, pid, req, Claiming, Unrelated, ReadingClaim);
    if req.documentKey !in w.claims.idem {
      var w' := w.(claims := InsertRecord(w.claims, req));
      ClaimInserts(w, req);
      Finished(w, w', pid, req, Claiming, ClaimsRecord, Threw(StoreFailure));
      Moved(w, w', pid, req, Claiming, ClaimsRecord, ReadingClaim);
      Moved(w, w', pid, req, Claiming, ClaimsRecord, ReadingResource);
    }
  }

  lemma ClaimInserts(w: World, req: Request)
    requires SharedOk(SharedOf(w), w.claims.issued) && req in w.claims.issued && req.documentKey !in w.claims.idem
    ensures var w' := w.(claims := InsertRecord(w.claims, req));
      StoreStep(w, w', req, ClaimsRecord) && Owns(req, SharedOf(w'))
  {
    hide RecordOk;
    if KeyOfReservation(req) in w.ledger.created {
      OneOwner(SharedOf(w), w.claims.issued, w.ledger.created[KeyOfReservation(req)].req, req);
    }
  }

  lemma ReadRecord(s: Shared, issued: set<Request>, req: Request)
    requires SharedOk(s, issued) && KeysOk(issued) && req in issued && req.documentKey in s.idem
    ensures var k := req.documentKey;
      && k in s.owners && s.owners[k] in issued && RecordOk(s.idem[k].doc, s.owners[k], s.created)
      && s.idem[k].cas < s.nextCas && s.owners[k].documentKey == k && Agree(req, s.owners[k])
  {
    hide RecordOk, Agree, IssuedOk, CreatedOk;
  }

  lemma ReadClaimKeeps(w: World, pid: nat, req: Request, io: Io)
    requires CreationInv(w) && Runs(w, pid, req, ReadingClaim)
    ensures CreationInv(StepReadClaim(w, pid, req, io))
  {
    hide CreationInv, SharedOk, KeysOk, MoveCreator, FinishCreator, Agree, Replay, SnapshotOf;
    Now(w, pid, req, ReadingClaim);
    Fails(w, pid, req, ReadingClaim);
    var key, s := req.documentKey, SharedOf(w);
    if io.Works? && key in w.claims.idem {
      ReadRecord(s, w.claims.issued, req);
      var record := w.claims.idem[key].doc;
      match Classify(record, req.fingerprint)
      case FingerprintMismatch =>
        Finished(w, w, pid, req, ReadingClaim, Unrelated, Returned(RejectedResult(IdempotencyConflict)));
      case ExistingProcessing => Moved(w, w, pid, req, ReadingClaim, Unrelated, Recovering(record));
      case ExistingTerminal =>
        TerminalReplays(record, req, s);
        Finished(w, w, pid, req, ReadingClaim, Unrelated, Returned(Replay(record.result.value)));
    }
  }

  lemma TerminalReplays(record: Record, req: Request, s: Shared)
    requires var k := req.documentKey;
      && k in s.idem && k in s.owners && s.idem[k].doc == record && RecordOk(record, s.owners[k], s.created)
    requires !record.status.Processing? && record.fingerprint == req.fingerprint
    ensures record.result.Some?
    ensures ResponseOk(Response(req, Returned(Replay(record.result.value))), s)
  {
  }

  // ----- Recovering -----

  lemma OwnerOf(s: Shared, issued: set<Request>, req: Request, record: Record)
    requires SharedOk(s, issued) && KeysOk(issued) && req in issued && RecoversOk(record, req, s)
    ensures var owner := s.owners[req.documentKey];
      && owner in issued && record == ProcessingRecord(owner)
      && req.cmd.Payload() == owner.cmd.Payload() && req.cmd.ScopeOf() == owner.cmd.ScopeOf()
      && (record.scope.org, record.ids.reservation) == KeyOfReservation(owner)
      && (KeyOfReservation(owner) in s.created ==> s.created[KeyOfReservation(owner)].req == owner)
  {
    hide RecordOk;
    ReadRecord(s, issued, req);
    var owner := s.owners[req.documentKey];
    if KeyOfReservation(owner) in s.created {
      OneOwner(s, issued, s.created[KeyOfReservation(owner)].req, owner);
    }
  }

  /** What recovery finds under the owner's identifier matches exactly when it is as it was created. */
  lemma LoadedMatches(l: Ledger, owner: Request, cmd: Command)
    requires History.HistoryInv(l) && cmd.Payload() == owner.cmd.Payload()
    requires KeyOfReservation(owner) in l.reservations ==>
      KeyOfReservation(owner) in l.created && l.created[KeyOfReservation(owner)].req == owner
    ensures var key := KeyOfReservation(owner); key in l.reservations ==>
      var loaded := l.reservations[key].doc;
      && key in l.created && (loaded.org, loaded.id) == key
      && (MatchesOriginal(loaded, ProcessingRecord(owner), cmd) ==> loaded == Created(owner.cmd, l.created[key].pending))
  {
    hide MatchesOriginal, History.Chain, History.EditorsOk, History.AcknowledgementsOk, Created;
    var key := KeyOfReservation(owner);
    if key in l.reservations {
      assert History.KeyOk(l, key);
      var h := l.history[key];
      History.RecoveryExact(key, h, owner, l.created[key].pending, cmd);
      History.StartIsCreation(l.created[key]);
      History.HistoryDeparts(key, h, |h| - 1);
      CreatedIdentity(owner.cmd, l.created[key].pending);
    }
  }

  lemma CreatedIdentity(cmd: Command, pending: bool)
    ensures var r := Created(cmd, pending); (r.org, r.id) == (cmd.org, cmd.ids.reservation)
  {
  }

  lemma LedgerKeys(l: Ledger)
    requires History.HistoryInv(l)
    ensures l.reservations.Keys == l.created.Keys
  {
    hide History.KeyOk, History.EditorsOk, History.AcknowledgementsOk;
  }

  lemma RecoverKeeps(w: World, pid: nat, req: Request, record: Record, io: Io)
    requires CreationInv(w) && History.HistoryInv(w.ledger) && Runs(w, pid, req, Recovering(record))
    ensures CreationInv(StepRecover(w, pid, req, record, io))
  {
    hide CreationInv, History.HistoryInv, SharedOk, KeysOk, MoveCreator, FinishCreator, MatchesOriginal, Created, ProcessingRecord;
    Now(w, pid, req, Recovering(record));
    Fails(w, pid, req, Recovering(record));
    var s, owner := SharedOf(w), w.claims.owners[req.documentKey];
    OwnerOf(s, w.claims.issued, req, record);
    LedgerKeys(w.ledger);
    LoadedMatches(w.ledger, owner, req.cmd);
    Finished(w, w, pid, req, Recovering(record), Unrelated, Returned(RejectedResult(IdempotencyInProgress)));
    Finished(w, w, pid, req, Recovering(record), Unrelated, Returned(RejectedResult(IdempotencyConflict)));
    var key := KeyOfReservation(owner);
    if key in w.ledger.reservations && MatchesOriginal(w.ledger.reservations[key].doc, record, req.cmd) {
      var next := CheckingEvents(record, w.ledger.reservations[key].doc, false);
      Moved(w, w, pid, req, Recovering(record), Unrelated, next);
    }
  }

  function KeyOfEvent(c: Creation, second: bool): EventKey {
    if second then KeysOfEvents(c).1 else KeysOfEvents(c).0
  }

  lemma ExpectedId(c: Creation, second: bool)
    ensures ExpectedEventIds(Created(c.req.cmd, c.pending), ProcessingRecord(c.req))[if second then 1 else 0]
            == KeyOfEvent(c, second).1
    ensures KeyOfEvent(c, second).0 == c.req.cmd.org
  {
  }

  lemma EventIsCreation(c: Creation, entry: OutboxEntry, second: bool)
    requires Books.EntryOf(c, KeyOfEvent(c, second), entry) && entry.aggregate == c.req.cmd.ids.reservation
    ensures IsCreationEvent(entry, c.req.cmd.org, c.req.cmd.ids.reservation, KeyOfEvent(c, second).1, second)
  {
  }

  /** Both events of every creation are found, and are its creation events. */
  lemma EventFound(o: Outbox, created: map<ReservationKey, Creation>, c: Creation, second: bool)
    requires Books.OutboxInv(o, created)
    requires KeyOfReservation(c.req) in created && created[KeyOfReservation(c.req)] == c
    ensures var key := KeyOfEvent(c, second);
      key in o.entries && IsCreationEvent(o.entries[key].doc, c.req.cmd.org, c.req.cmd.ids.reservation, key.1, second)
  {
    hide Books.OutboxInv, Books.EntryOf, KeysOfEvents, IsCreationEvent, ExpectedEventIds;
    var key := KeyOfEvent(c, second);
    ExpectedId(c, second);
    Books.StoredEvents(o, created, KeyOfReservation(c.req));
    EventIsCreation(c, o.entries[key].doc, second);
  }

  lemma CompleteKeeps(w: World, pid: nat, req: Request, pc: CreatePc, c: Completion, createdAt: Instant)
    requires CreationInv(w) && Runs(w, pid, req, pc)
    requires SnapshotFor(c.result, createdAt) == Some(c.snapshot) && c.succeeded == c.result.reservation.Some?
    requires CompletionOk(c, req, SharedOf(w))
    ensures CreationInv(BeginCompletion(w, pid, req, c.scope, c.fingerprint, createdAt, c.result))
  {
    hide CreationInv, CompletionOk, SnapshotFor, MoveCreator;
    Moved(w, w, pid, req, pc, Unrelated, CompletionRead(c));
  }

  lemma OwnSnapshot(req: Request, pending: bool)
    ensures SnapshotFor(ResultOf(req, pending), req.cmd.at) == Some(SnapshotOf(req, pending))
    ensures ResultOf(req, pending).reservation.Some? && Replay(SnapshotOf(req, pending)) == ResultOf(req, pending)
    ensures !IsTransient(ResultOf(req, pending).status)
  {
  }

  lemma CheckEventKeeps(w: World, pid: nat, req: Request, record: Record, loaded: ReservationState, second: bool, io: Io)
    requires CreationInv(w) && Books.OutboxInv(w.outbox, w.ledger.created)
    requires Runs(w, pid, req, CheckingEvents(record, loaded, second))
    ensures CreationInv(StepCheckEvent(w, pid, req, record, loaded, second, io))
  {
    hide CreationInv, Books.OutboxInv, SharedOk, KeysOk, MoveCreator, FinishCreator, BeginCompletion, Created, IsCreationEvent,
         ExpectedEventIds, SnapshotOf, SnapshotFor, SuccessResult;
    var pc := CheckingEvents(record, loaded, second);
    Now(w, pid, req, pc);
    Fails(w, pid, req, pc);
    var s, owner := SharedOf(w), w.claims.owners[req.documentKey];
    OwnerOf(s, w.claims.issued, req, record);
    var creation := s.created[KeyOfReservation(owner)];
    EventFound(w.outbox, w.ledger.created, creation, second);
    ExpectedId(creation, second);
    if !second {
      Moved(w, w, pid, req, pc, Unrelated, CheckingEvents(record, loaded, true));
    } else {
      OwnSnapshot(owner, creation.pending);
      var c := Completion(record.scope, record.fingerprint, SnapshotOf(owner, creation.pending), true,
                          ResultOf(owner, creation.pending));
      CompleteKeeps(w, pid, req, pc, c, record.createdAt);
    }
  }

  // ----- Deciding -----

  lemma RejectKeeps(w: World, pid: nat, req: Request, pc: CreatePc, status: CreateStatus)
    requires CreationInv(w) && Runs(w, pid, req, pc) && Owns(req, SharedOf(w)) && IsPermanentRejection(status)
    ensures CreationInv(RejectCreation(w, pid, req, status))
  {
    hide CreationInv;
    var c := Completion(req.cmd.ScopeOf(), req.fingerprint, RejectionSnapshot(status), false, RejectedResult(status));
    CompleteKeeps(w, pid, req, pc, c, req.cmd.at);
  }

  lemma DecideKeeps(w: World, pid: nat, req: Request, io: Io, resource: Option<Resource>, count: int)
    requires CreationInv(w) && Runs(w, pid, req, ReadingResource)
    ensures CreationInv(StepReadResource(w, pid, req, io, resource))
  {
    hide CreationInv, RejectResource, RejectCreation, MoveCreator, FinishCreator, Owns, SharedOk, KeysOk;
    Now(w, pid, req, ReadingResource);
    Fails(w, pid, req, ReadingResource);
    match RejectResource(req.cmd, resource)
    case Some(status) => RejectKeeps(w, pid, req, ReadingResource, status);
    case None => Moved(w, w, pid, req, ReadingResource, Unrelated, Counting(resource.value));
  }

  lemma CountKeeps(w: World, pid: nat, req: Request, resource: Resource, io: Io, count: int)
    requires CreationInv(w) && Runs(w, pid, req, Counting(resource))
    ensures CreationInv(StepCount(w, pid, req, resource, io, count))
  {
    hide CreationInv, FullyReserved, RejectCreation, MoveCreator, FinishCreator, Owns, SharedOk, KeysOk;
    Now(w, pid, req, Counting(resource));
    Fails(w, pid, req, Counting(resource));
    RejectKeeps(w, pid, req, Counting(resource), ScheduleConflict);
    Moved(w, w, pid, req, Counting(resource), Unrelated, Persisting(resource.requiresApproval));
  }

  // ----- Persisting -----

  /** Nothing is stored yet under the identifiers of a command that has created nothing. */
  lemma NothingStored(w: World, req: Request, pending: bool)
    requires SharedOk(SharedOf(w), w.claims.issued) && req in w.claims.issued && Owns(req, SharedOf(w))
    requires Books.OutboxInv(w.outbox, w.ledger.created)
    ensures var keys := KeysOfEvents(Creation(req, pending)); keys.0 !in w.outbox.entries && keys.1 !in w.outbox.entries
  {
    hide RecordsOk, Books.EventsStored, Books.TrafficOk, Books.PublishersOk, CreatedEvents;
    var keys := KeysOfEvents(Creation(req, pending));
    forall key | key in w.outbox.entries && (key == keys.0 || key == keys.1)
      ensures false
    {
      var entry := w.outbox.entries[key].doc;
      assert Books.EntryOk(key, entry, w.ledger.created);
      var other := w.ledger.created[(key.0, entry.aggregate)];
      EventIdsIntersect(req, other.req, key.1);
    }
  }

  lemma EventIdsIntersect(a: Request, b: Request, id: Id)
    requires id in a.cmd.ids.EventIds() && id in b.cmd.ids.EventIds()
    ensures SharesId(a, b)
  {
    assert id in a.cmd.ids.EventIds() * b.cmd.ids.EventIds();
  }

  lemma PersistKeeps(w: World, pid: nat, req: Request, pending: bool, io: Io)
    requires CreationInv(w) && History.HistoryInv(w.ledger) && Books.OutboxInv(w.outbox, w.ledger.created)
    requires Runs(w, pid, req, Persisting(pending))
    ensures CreationInv(StepPersist(w, pid, req, pending, io))
  {
    hide CreationInv, History.HistoryInv, Books.OutboxInv, SharedOk, KeysOk, MoveCreator, FinishCreator, KeysOfEvents,
         InsertEvents, Created;
    Now(w, pid, req, Persisting(pending));
    Fails(w, pid, req, Persisting(pending));
    LedgerKeys(w.ledger);
    NothingStored(w, req, pending);
    var creation := Creation(req, pending);
    var w' := w.(ledger := InsertReservation(w.ledger, creation), outbox := InsertEvents(w.outbox, creation));
    Finished(w, w', pid, req, Persisting(pending), PersistsCreation(pending), Threw(StoreFailure));
    Moved(w, w', pid, req, Persisting(pending), PersistsCreation(pending), ReadingToken(pending));
  }

  lemma ReadTokenKeeps(w: World, pid: nat, req: Request, pending: bool, io: Io)
    requires CreationInv(w) && Runs(w, pid, req, ReadingToken(pending))
    ensures CreationInv(StepReadToken(w, pid, req, pending, io))
  {
    hide CreationInv, SharedOk, KeysOk, BeginCompletion, FinishCreator, Created, SnapshotOf, SnapshotFor, SuccessResult;
    Now(w, pid, req, ReadingToken(pending));
    Fails(w, pid, req, ReadingToken(pending));
    OwnSnapshot(req, pending);
    var c := Completion(req.cmd.ScopeOf(), req.fingerprint, SnapshotOf(req, pending), true, ResultOf(req, pending));
    CompleteKeeps(w, pid, req, ReadingToken(pending), c, req.cmd.at);
  }

  // ----- Completing -----

  /** The original claimer and a recovering retry complete with the same snapshot, so validation finds no conflict. */
  lemma CompletionValidates(s: Shared, issued: set<Request>, req: Request, c: Completion)
    requires SharedOk(s, issued) && KeysOk(issued) && req in issued && CompletionOk(c, req, s)
    ensures var record, owner := s.idem[req.documentKey].doc, s.owners[req.documentKey];
      && record.scope == c.scope && ValidateCompletion(record, c.fingerprint, c.snapshot, c.succeeded) == None
      && (record.status.Processing? ==> record == ProcessingRecord(owner))
      && (!record.status.Processing? ==> record.status.Succeeded? && c.succeeded && ResponseOk(Response(req, Returned(c.result)), s))
  {
    hide SharedOk, KeysOk;
    ReadRecord(s, issued, req);
    var owner := s.owners[req.documentKey];
    if KeyOfReservation(owner) in s.created {
      OwnSnapshot(owner, s.created[KeyOfReservation(owner)].pending);
    }
  }

  lemma CompletionReadKeeps(w: World, pid: nat, req: Request, c: Completion, io: Io)
    requires CreationInv(w) && Runs(w, pid, req, CompletionRead(c))
    ensures CreationInv(StepCompletionRead(w, pid, req, c, io))
  {
    hide CreationInv, SharedOk, KeysOk, MoveCreator, FinishCreator, ValidateCompletion, ResponseOk, ProcessingRecord;
    Now(w, pid, req, CompletionRead(c));
    Fails(w, pid, req, CompletionRead(c));
    CompletionValidates(SharedOf(w), w.claims.issued, req, c);
    var stored := w.claims.idem[req.documentKey];
    if stored.doc.status.Processing? {
      ReadRecord(SharedOf(w), w.claims.issued, req);
      Moved(w, w, pid, req, CompletionRead(c), Unrelated, CompletionWrite(c, stored.doc, stored.cas));
    } else {
      Finished(w, w, pid, req, CompletionRead(c), Unrelated, Returned(c.result));
    }
  }

  /** A rejection that has been recorded is accepted again, and replayed as the answer it was. */
  lemma RejectionValidates(s: Shared, issued: set<Request>, req: Request, c: Completion)
    requires SharedOk(s, issued) && KeysOk(issued) && req in issued && ReconcileOk(c, req, s) && !c.succeeded
    ensures var record := s.idem[req.documentKey].doc;
      && record.scope == c.scope && ValidateCompletion(record, c.fingerprint, c.snapshot, c.succeeded) == None
      && ResponseOk(Response(req, Returned(c.result)), s)
  {
    hide SharedOk, KeysOk;
    ReadRecord(s, issued, req);
  }

  lemma ReconcileKeeps(w: World, pid: nat, req: Request, c: Completion, io: Io)
    requires CreationInv(w) && Runs(w, pid, req, CompletionReconcile(c))
    ensures CreationInv(StepReconcile(w, pid, req, c, io))
  {
    hide CreationInv, SharedOk, KeysOk, FinishCreator, ValidateCompletion, ResponseOk;
    Now(w, pid, req, CompletionReconcile(c));
    Fails(w, pid, req, CompletionReconcile(c));
    if c.succeeded {
      CompletionValidates(SharedOf(w), w.claims.issued, req, c);
    } else {
      RejectionValidates(SharedOf(w), w.claims.issued, req, c);
    }
    Finished(w, w, pid, req, CompletionReconcile(c), Unrelated, Returned(c.result));
  }

  /** The replacement completes the record, and the answer is what the completed record replays. */
  lemma WriteCompletes(w: World, req: Request, c: Completion, record: Record)
    requires SharedOk(SharedOf(w), w.claims.issued) && KeysOk(w.claims.issued) && req in w.claims.issued
    requires CompletionOk(c, req, SharedOf(w)) && record == w.claims.idem[req.documentKey].doc && record.status.Processing?
    ensures var w' := w.(claims := ReplaceRecord(w.claims, req.documentKey, c, record));
      && StoreStep(w, w', req, CompletesRecord(c)) && ResponseOk(Response(req, Returned(c.result)), SharedOf(w'))
      && ReconcileOk(c, req, SharedOf(w'))
  {
    hide SharedOk, KeysOk, ValidateCompletion;
    CompletionValidates(SharedOf(w), w.claims.issued, req, c);
    var owner := w.claims.owners[req.documentKey];
    if KeyOfReservation(owner) in w.ledger.created {
      OwnSnapshot(owner, w.ledger.created[KeyOfReservation(owner)].pending);
    }
  }

  lemma CompletionWriteKeeps(w: World, pid: nat, req: Request, c: Completion, record: Record, cas: nat, io: Io)
    requires CreationInv(w) && Runs(w, pid, req, CompletionWrite(c, record, cas))
    ensures CreationInv(StepCompletionWrite(w, pid, req, c, record, cas, io))
  {
    hide CreationInv, SharedOk, KeysOk, MoveCreator, FinishCreator, ResponseOk, ReplaceRecord, StoreStep;
    var pc := CompletionWrite(c, record, cas);
    Now(w, pid, req, pc);
    Fails(w, pid, req, pc);
    if w.claims.idem[req.documentKey].cas == cas {
      CompletionValidates(SharedOf(w), w.claims.issued, req, c);
      var w' := w.(claims := ReplaceRecord(w.claims, req.documentKey, c, record));
      WriteCompletes(w, req, c, record);
      Finished(w, w', pid, req, pc, CompletesRecord(c), Returned(c.result));
      Moved(w, w', pid, req, pc, CompletesRecord(c), CompletionReconcile(c));
      FailureOk(req, SharedOf(w'));
      Finished(w, w', pid, req, pc, CompletesRecord(c), Threw(StoreFailure));
    } else {
      StoreStepRefl(w, req);
      Moved(w, w, pid, req, pc, Unrelated, CompletionReconcile(c));
    }
  }

  lemma FailureOk(req: Request, s: Shared)
    ensures ResponseOk(Response(req, Threw(StoreFailure)), s)
  {
  }

  lemma StoreStepRefl(w: World, req: Request)
    ensures StoreStep(w, w, req, Unrelated)
  {
  }

  /** Every step of a creation handler keeps the invariant. */
  lemma CreatorStepKeeps(w: World, pid: nat, io: Io, resource: Option<Resource>, count: int)
    requires CreationInv(w) && History.HistoryInv(w.ledger) && Books.OutboxInv(w.outbox, w.ledger.created)
    ensures CreationInv(CreatorStep(w, pid, io, resource, count))
  {
    hide CreationInv, History.HistoryInv, Books.OutboxInv, StepClaim, StepReadClaim, StepRecover, StepCheckEvent,
         StepReadResource, StepCount, StepPersist, StepReadToken, StepCompletionRead, StepCompletionWrite, StepReconcile;
    if pid in w.claims.creators {
      var req := w.claims.creators[pid].req;
      match w.claims.creators[pid].pc
      case Claiming => ClaimKeeps(w, pid, req, io);
      case ReadingClaim => ReadClaimKeeps(w, pid, req, io);
      case Recovering(record) => RecoverKeeps(w, pid, req, record, io);
      case CheckingEvents(record, loaded, second) => CheckEventKeeps(w, pid, req, record, loaded, second, io);
      case ReadingResource => DecideKeeps(w, pid, req, io, resource, count);
      case Counting(r) => CountKeeps(w, pid, req, r, io, count);
      case Persisting(pending) => PersistKeeps(w, pid, req, pending, io);
      case ReadingToken(pending) => ReadTokenKeeps(w, pid, req, pending, io);
      case CompletionRead(c) => CompletionReadKeeps(w, pid, req, c, io);
      case CompletionWrite(c, record, cas) => CompletionWriteKeeps(w, pid, req, c, record, cas, io);
      case CompletionReconcile(c) => ReconcileKeeps(w, pid, req, c, io);
    }
  }
}
