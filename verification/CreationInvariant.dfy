/**
 Idempotent creation: the invariant that ties idempotency records, reservations and the
 program counters of creation handlers together, and its preservation by every action.
 */
module CreationInvariant {
  import opened Wrappers
  import opened Timestamp
  import opened Domain
  import opened Encoding
  import opened Idempotency
  import opened Handlers
  import opened World

  function SnapshotOf(req: Request, pending: bool): Snapshot {
    var r := Created(req.cmd, pending);
    SuccessSnapshot(if pending then CreatedPendingApproval else CreatedConfirmed, r.org, r.id, r.resource, r.creator,
                    r.interval, r.purpose, r.status, r.kind, r.version, req.cmd.at)
  }

  function ResultOf(req: Request, pending: bool): CreateResult {
    SuccessResult(Created(req.cmd, pending), req.cmd.at)
  }

  /** The part of the world that creation is about. */
  datatype Shared = Shared(idem: map<string, Stored<Record>>, owners: map<string, Request>,
                           created: map<ReservationKey, Creation>, nextCas: nat)

  function SharedOf(w: World): Shared { Shared(w.claims.idem, w.claims.owners, w.ledger.created, w.claims.nextCas) }

  // ----- The invariant -----

  /** No two issued requests have a generated identifier in common. */
  ghost predicate IssuedOk(issued: set<Request>) {
    forall a, b :: a in issued && b in issued && SharesId(a, b) ==> a == b
  }

  /** Their document keys and fingerprints stand for their scopes and payloads. */
  ghost predicate KeysOk(issued: set<Request>) {
    forall a, b :: a in issued && b in issued ==> Agree(a, b)
  }

  predicate RecordOk(record: Record, req: Request, created: map<ReservationKey, Creation>) {
    var key := KeyOfReservation(req);
    match record.status
    case Processing => record == ProcessingRecord(req)
    case Succeeded =>
      key in created && record == CompletedRecord(ProcessingRecord(req), SnapshotOf(req, created[key].pending), true)
    case FailedPermanent =>
      && key !in created && record.result.Some? && record.result.value.RejectionSnapshot?
      && IsPermanentRejection(record.result.value.status)
      && record == CompletedRecord(ProcessingRecord(req), record.result.value, false)
  }

  /** Each record is the owner's, in a state that agrees with what the owner committed. */
  ghost predicate RecordsOk(s: Shared, issued: set<Request>) {
    && s.idem.Keys == s.owners.Keys
    && (forall k :: k in s.idem ==> s.idem[k].cas < s.nextCas)
    && (forall k :: k in s.idem ==> s.owners[k].documentKey == k && s.owners[k] in issued)
    && (forall k :: k in s.idem ==> RecordOk(s.idem[k].doc, s.owners[k], s.created))
  }

  /** Only the owner of a record creates a reservation, under its own identifier. */
  ghost predicate CreatedOk(s: Shared) {
    forall r :: r in s.created ==>
      && r == KeyOfReservation(s.created[r].req) && s.created[r].req.documentKey in s.owners
      && s.owners[s.created[r].req.documentKey] == s.created[r].req
  }

  ghost predicate SharedOk(s: Shared, issued: set<Request>) {
    && IssuedOk(issued) && RecordsOk(s, issued) && CreatedOk(s)
    && (forall r :: r in s.created ==> s.created[r].req in issued)
  }

  /** The command owns its record, which is still being processed, and has created nothing. */
  predicate Owns(req: Request, s: Shared) {
    var k := req.documentKey;
    && k in s.idem && k in s.owners && s.owners[k] == req && s.idem[k].doc.status.Processing?
    && KeyOfReservation(req) !in s.created
  }

  /** A pending completion carries the one outcome its record can have. */
  predicate CompletionOk(c: Completion, req: Request, s: Shared) {
    var k := req.documentKey;
    && k in s.idem && k in s.owners && c.scope == req.cmd.ScopeOf()
    && c.fingerprint == s.owners[k].fingerprint == req.fingerprint
    && if c.succeeded then
         var r := KeyOfReservation(s.owners[k]);
         && r in s.created && c.snapshot == SnapshotOf(s.owners[k], s.created[r].pending)
         && c.result == ResultOf(s.owners[k], s.created[r].pending)
       else
         && Owns(req, s) && c.snapshot.RejectionSnapshot? && IsPermanentRejection(c.snapshot.status)
         && c.result == RejectedResult(c.snapshot.status)
  }

  /** A completion whose replace met another token: the record has taken that outcome. */
  predicate ReconcileOk(c: Completion, req: Request, s: Shared) {
    var k := req.documentKey;
    && k in s.idem && k in s.owners && c.scope == req.cmd.ScopeOf()
    && if c.succeeded then CompletionOk(c, req, s) && s.idem[k].doc.status.Succeeded?
       else
         && s.owners[k] == req && c.fingerprint == req.fingerprint
         && s.idem[k].doc.status.FailedPermanent? && s.idem[k].doc.result == Some(c.snapshot)
         && c.snapshot.RejectionSnapshot? && c.result == RejectedResult(c.snapshot.status)
         && IsPermanentRejection(c.snapshot.status)
  }

  predicate RecoversOk(record: Record, req: Request, s: Shared) {
    var k := req.documentKey;
    && k in s.idem && k in s.owners && record == ProcessingRecord(s.owners[k])
    && s.owners[k].fingerprint == req.fingerprint
  }

  predicate CreatorOk(c: Creator, s: Shared) {
    var k := c.req.documentKey;
    match c.pc
    case Claiming => true
    case ReadingClaim => true
    case Recovering(record) => RecoversOk(record, c.req, s)
    case CheckingEvents(record, loaded, _) =>
      && RecoversOk(record, c.req, s)
      && var r := KeyOfReservation(s.owners[k]);
         r in s.created && loaded == Created(s.owners[k].cmd, s.created[r].pending)
    case ReadingResource => Owns(c.req, s)
    case Counting(_) => Owns(c.req, s)
    case Persisting(_) => Owns(c.req, s)
    case ReadingToken(pending) =>
      && k in s.idem && k in s.owners && s.owners[k] == c.req
      && KeyOfReservation(c.req) in s.created && s.created[KeyOfReservation(c.req)].pending == pending
    case CompletionRead(completion) => CompletionOk(completion, c.req, s)
    case CompletionWrite(completion, record, cas) =>
      && CompletionOk(completion, c.req, s) && record == ProcessingRecord(s.owners[k]) && cas < s.nextCas
      && if s.idem[k].cas == cas then s.idem[k].doc.status.Processing?
         else s.idem[k].doc.status.Succeeded? && completion.succeeded
    case CompletionReconcile(completion) => ReconcileOk(completion, c.req, s)
  }

  /** Live handlers run different issued commands. */
  ghost predicate CreatorsOk(creators: map<nat, Creator>, s: Shared, issued: set<Request>) {
    && (forall p :: p in creators ==> creators[p].req in issued)
    && (forall p, q :: p in creators && q in creators && creators[p].req == creators[q].req ==> p == q)
    && (forall p :: p in creators ==> CreatorOk(creators[p], s))
  }

  predicate IsTransient(status: CreateStatus) {
    status.IdempotencyConflict? || status.IdempotencyInProgress?
  }

  /** The answer settles the request: a created reservation or a permanent rejection. */
  predicate Definitive(outcome: Outcome) {
    outcome.Returned? && !IsTransient(outcome.result.status)
  }

  /** A settled answer is the replay of a terminal record with the caller's own payload; an error is one of a store. */
  predicate ResponseOk(r: Response, s: Shared) {
    match r.outcome
    case Threw(error) => error == StoreFailure
    case Returned(result) =>
      var k := r.req.documentKey;
      && k in s.idem && k in s.owners
      && if IsTransient(result.status) then result == RejectedResult(result.status)
         else
           && s.owners[k].fingerprint == r.req.fingerprint
           && s.idem[k].doc.result.Some? && result == Replay(s.idem[k].doc.result.value)
  }

  ghost predicate ResponsesOk(responses: set<Response>, issued: set<Request>, s: Shared) {
    forall r :: r in responses ==> r.req in issued && ResponseOk(r, s)
  }

  ghost predicate CreationInv(w: World) {
    var s, c := SharedOf(w), w.claims;
    SharedOk(s, c.issued) && KeysOk(c.issued) && CreatorsOk(c.creators, s, c.issued) && ResponsesOk(c.responses, c.issued, s)
  }

  // ----- Changes of the shared part, and what survives them -----

  predicate Claims(s: Shared, s': Shared, req: Request) {
    var k := req.documentKey;
    && k !in s.idem && k !in s.owners
    && s' == Shared(s.idem[k := Stored(ProcessingRecord(req), s.nextCas)], s.owners[k := req], s.created, s.nextCas + 1)
  }

  predicate Persists(s: Shared, s': Shared, req: Request, pending: bool) {
    && Owns(req, s)
    && s' == Shared(s.idem, s.owners, s.created[KeyOfReservation(req) := Creation(req, pending)], s.nextCas)
  }

  predicate Completes(s: Shared, s': Shared, req: Request, c: Completion) {
    var k := req.documentKey;
    && CompletionOk(c, req, s) && s.idem[k].doc == ProcessingRecord(s.owners[k])
    && s' == s.(idem := s.idem[k := Stored(CompletedRecord(s.idem[k].doc, c.snapshot, c.succeeded), s.nextCas)],
                nextCas := s.nextCas + 1)
  }

  datatype Change = ClaimsRecord | PersistsCreation(pending: bool) | CompletesRecord(completion: Completion) | Unrelated

  /** What one action on behalf of `req` may do to the shared part. */
  predicate Changes(s: Shared, s': Shared, req: Request, change: Change) {
    && s.nextCas <= s'.nextCas
    && match change
       case ClaimsRecord => Claims(s, s', req)
       case PersistsCreation(pending) => Persists(s, s', req, pending)
       case CompletesRecord(completion) => Completes(s, s', req, completion)
       case Unrelated => s' == s.(nextCas := s'.nextCas)
  }

  lemma OneOwner(s: Shared, issued: set<Request>, a: Request, b: Request)
    requires SharedOk(s, issued) && a in issued && b in issued && KeyOfReservation(a) == KeyOfReservation(b)
    ensures a == b
  {
    assert SharesId(a, b);
  }

  lemma RecordSurvives(s: Shared, s': Shared, issued: set<Request>, req: Request, change: Change, k: string)
    requires SharedOk(s, issued) && req in issued && Changes(s, s', req, change) && k in s.idem
    ensures k in s'.idem && k in s'.owners && s'.owners[k] == s.owners[k] && s'.idem[k].cas < s'.nextCas
    ensures RecordOk(s'.idem[k].doc, s'.owners[k], s'.created)
    ensures s'.idem[k] == s.idem[k] || (s'.idem[k].cas == s.nextCas && s.idem[k].doc.status.Processing?)
  {
    hide IssuedOk, CreatedOk, RecordOk, CompletionOk, CompletedRecord, ProcessingRecord;
    match change
    case PersistsCreation(pending) =>
      if KeyOfReservation(s.owners[k]) == KeyOfReservation(req) { OneOwner(s, issued, s.owners[k], req); }
      OwnOutcome(s, s', s.owners[k], req, pending, s.idem[k].doc);
    case CompletesRecord(c) => if k == req.documentKey { CompletedOk(s, s', req, c); }
    case _ =>
  }

  /** A creation leaves the records of all requests but its own in order, and its own while it is processed. */
  lemma OwnOutcome(s: Shared, s': Shared, owner: Request, req: Request, pending: bool, record: Record)
    requires RecordOk(record, owner, s.created) && s'.created == s.created[KeyOfReservation(req) := Creation(req, pending)]
    requires KeyOfReservation(owner) == KeyOfReservation(req) ==> record.status.Processing?
    ensures RecordOk(record, owner, s'.created)
  {
    hide SnapshotOf, ProcessingRecord;
  }

  lemma CompletedOk(s: Shared, s': Shared, req: Request, c: Completion)
    requires Completes(s, s', req, c)
    ensures s.idem[req.documentKey].doc.status.Processing?
    ensures RecordOk(s'.idem[req.documentKey].doc, s.owners[req.documentKey], s.created)
  {
    hide SnapshotOf;
  }

  lemma RecordsSurvive(s: Shared, s': Shared, issued: set<Request>, req: Request, change: Change)
    requires SharedOk(s, issued) && req in issued && Changes(s, s', req, change)
    ensures RecordsOk(s', issued)
  {
    forall k | k in s'.idem
      ensures k in s'.owners && s'.idem[k].cas < s'.nextCas && s'.owners[k].documentKey == k && s'.owners[k] in issued
      ensures RecordOk(s'.idem[k].doc, s'.owners[k], s'.created)
    {
      if k in s.idem {
        RecordSurvives(s, s', issued, req, change, k);
      } else {
        assert s'.idem[k] == Stored(ProcessingRecord(req), s.nextCas);
      }
    }
  }

  lemma SharedSurvives(s: Shared, s': Shared, issued: set<Request>, req: Request, change: Change)
    requires SharedOk(s, issued) && req in issued && Changes(s, s', req, change)
    ensures SharedOk(s', issued)
  {
    RecordsSurvive(s, s', issued, req, change);
    forall r | r in s'.created
      ensures var owner := s'.created[r].req;
        && r == KeyOfReservation(owner) && owner in issued && owner.documentKey in s'.owners
        && s'.owners[owner.documentKey] == owner
    {
      assert r in s.created || s'.created[r].req == req;
    }
  }

  lemma OwnsSurvives(s: Shared, s': Shared, issued: set<Request>, req: Request, change: Change, other: Request)
    requires SharedOk(s, issued) && req in issued && other in issued && other != req
    requires Changes(s, s', req, change) && Owns(other, s)
    ensures Owns(other, s')
  {
    if KeyOfReservation(other) == KeyOfReservation(req) {
      OneOwner(s, issued, other, req);
    }
  }

  lemma CompletionSurvives(s: Shared, s': Shared, issued: set<Request>, req: Request, change: Change, other: Request,
                           c: Completion)
    requires SharedOk(s, issued) && req in issued && other in issued && other != req
    requires Changes(s, s', req, change) && CompletionOk(c, other, s)
    ensures CompletionOk(c, other, s')
  {
    RecordSurvives(s, s', issued, req, change, other.documentKey);
    if !c.succeeded {
      OwnsSurvives(s, s', issued, req, change, other);
    }
  }

  lemma WriteSurvives(s: Shared, s': Shared, issued: set<Request>, req: Request, change: Change, c: Creator,
                      completion: Completion, record: Record, cas: nat)
    requires SharedOk(s, issued) && req in issued && c.req in issued && c.req != req
    requires Changes(s, s', req, change) && c.pc == CompletionWrite(completion, record, cas) && CreatorOk(c, s)
    ensures CreatorOk(c, s')
  {
    RecordSurvives(s, s', issued, req, change, c.req.documentKey);
    CompletionSurvives(s, s', issued, req, change, c.req, completion);
  }

  lemma CompletingSurvives(s: Shared, s': Shared, issued: set<Request>, req: Request, change: Change, c: Creator)
    requires SharedOk(s, issued) && req in issued && c.req in issued && c.req != req
    requires Changes(s, s', req, change) && CreatorOk(c, s)
    requires c.pc.CompletionRead? || c.pc.CompletionReconcile?
    ensures CreatorOk(c, s')
  {
    RecordSurvives(s, s', issued, req, change, c.req.documentKey);
    if c.pc.CompletionRead? || c.pc.completion.succeeded {
      CompletionSurvives(s, s', issued, req, change, c.req, c.pc.completion);
    }
  }

  lemma CreatedSurvives(s: Shared, s': Shared, req: Request, change: Change)
    requires Changes(s, s', req, change)
    ensures forall r :: r in s.created ==> r in s'.created && s'.created[r] == s.created[r]
  {
    hide CompletionOk, CompletedRecord, ProcessingRecord;
  }

  /** Handlers that know of a record, or of their own reservation, keep knowing it. */
  lemma KnowledgeSurvives(s: Shared, s': Shared, issued: set<Request>, req: Request, change: Change, c: Creator)
    requires SharedOk(s, issued) && req in issued && c.req in issued && c.req != req
    requires Changes(s, s', req, change) && CreatorOk(c, s)
    requires c.pc.Recovering? || c.pc.CheckingEvents? || c.pc.ReadingToken?
    ensures CreatorOk(c, s')
  {
    hide SharedOk, CompletionOk, ProcessingRecord, Created, Changes;
    RecordSurvives(s, s', issued, req, change, c.req.documentKey);
    CreatedSurvives(s, s', req, change);
  }

  /** A step on behalf of one request leaves the handlers of all others in order. */
  lemma CreatorSurvives(s: Shared, s': Shared, issued: set<Request>, req: Request, change: Change, c: Creator)
    requires SharedOk(s, issued) && req in issued && c.req in issued && c.req != req
    requires Changes(s, s', req, change) && CreatorOk(c, s)
    ensures CreatorOk(c, s')
  {
    hide SharedOk, Changes, CompletionOk, ReconcileOk, RecoversOk;
    match c.pc
    case Claiming =>
    case ReadingClaim =>
    case Recovering(_) => KnowledgeSurvives(s, s', issued, req, change, c);
    case CheckingEvents(_, _, _) => KnowledgeSurvives(s, s', issued, req, change, c);
    case ReadingResource => OwnsSurvives(s, s', issued, req, change, c.req);
    case Counting(_) => OwnsSurvives(s, s', issued, req, change, c.req);
    case Persisting(_) => OwnsSurvives(s, s', issued, req, change, c.req);
    case ReadingToken(_) => KnowledgeSurvives(s, s', issued, req, change, c);
    case CompletionRead(_) => CompletingSurvives(s, s', issued, req, change, c);
    case CompletionWrite(completion, record, cas) => WriteSurvives(s, s', issued, req, change, c, completion, record, cas);
    case CompletionReconcile(_) => CompletingSurvives(s, s', issued, req, change, c);
  }

  lemma ResponseSurvives(s: Shared, s': Shared, issued: set<Request>, req: Request, change: Change, r: Response)
    requires SharedOk(s, issued) && req in issued && Changes(s, s', req, change) && ResponseOk(r, s)
    ensures ResponseOk(r, s')
  {
    if r.outcome.Returned? {
      RecordSurvives(s, s', issued, req, change, r.req.documentKey);
    }
  }
}
