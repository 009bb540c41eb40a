/**
 The whole service as a state machine: the three Couchbase collections, the broker, and any
 number of creation handlers, edit handlers and outbox publishers. Every action is one access
 to a store or to the broker by one process, the start of a process, or its crash. `Act` is
 total: an action that is not possible in a state leaves it as it is.
 */
module World {
  import opened Wrappers
  import opened Timestamp
  import opened Domain
  import opened Encoding
  import opened Idempotency
  import opened Handlers

  // ----- Stores -----

  datatype Stored<T> = Stored(doc: T, cas: nat)

  /** Organization and reservation identifier. */
  type ReservationKey = (Id, Id)

  /** Organization and event identifier. */
  type EventKey = (Id, Id)

  datatype OutboxEntry = OutboxEntry(org: Id, aggregate: Id, event: Event, status: OutboxStatus, attempts: nat,
                                     publishedAt: Option<Instant>)

  /** `++attempt_count` on 32 unsigned bits. */
  function NextAttempt(attempts: nat): nat {
    (attempts + 1) % 0x1_0000_0000
  }

  /**
   How a store operation ends: done, or with an error before or after it took effect.
   `ConflictAfter`: it took effect, its reply was lost, and the repetition inside the client meets
   the document just written and reports a conflict.
   */
  datatype Io = Works | FailsBefore | FailsAfter | AmbiguousBefore | AmbiguousAfter | ConflictAfter

  predicate Effective(io: Io) {
    io.Works? || io.FailsAfter? || io.AmbiguousAfter? || io.ConflictAfter?
  }

  /** A conflict, if there is one, is reported as a conflict. */
  predicate Reported(io: Io) {
    io.Works? || io.ConflictAfter?
  }

  // ----- Creation handlers -----

  /** A pending call of `complete`, and the answer the handler gives after it. */
  datatype Completion = Completion(scope: Scope, fingerprint: string, snapshot: Snapshot, succeeded: bool, result: CreateResult)

  datatype CreatePc =
    | Claiming
    | ReadingClaim
    | Recovering(record: Record)
    | CheckingEvents(record: Record, loaded: ReservationState, second: bool)
    | ReadingResource
    | Counting(resource: Resource)
    | Persisting(pending: bool)
    | ReadingToken(pending: bool)
    | CompletionRead(completion: Completion)
    | CompletionWrite(completion: Completion, record: Record, cas: nat)
    | CompletionReconcile(completion: Completion)

  datatype Creator = Creator(req: Request, pc: CreatePc)

  /** `StoreFailure` is any error of a store operation itself; the others are the handler's and the repository's own. */
  datatype HandlerError =
    | StoreFailure | StaleIdentity | MissingRecord | MissingResult | CompletionRejected(error: CompletionError)
    | ConcurrentCompletion | AlreadyExists | InvalidCreationEvent | InvalidSnapshotError

  datatype Outcome = Returned(result: CreateResult) | Threw(error: HandlerError)

  datatype Response = Response(req: Request, outcome: Outcome)

  // ----- Edit handlers -----

  datatype EditPc =
    | Loading
    | CheckingConflict(loaded: ReservationState, token: nat, transition: Transition)
    | Writing(loaded: ReservationState, token: nat, transition: Transition)

  datatype Editor = Editor(cmd: EditCommand, pc: EditPc)

  /** An edit reported as done: the state it found and the state it wrote. */
  datatype Acknowledgement = Acknowledgement(key: ReservationKey, before: ReservationState, after: ReservationState)

  // ----- Publishers -----

  datatype Candidate = Candidate(key: EventKey, token: nat)

  datatype PublishPc =
    | ClaimRead
    | ClaimWrite(entry: OutboxEntry)
    | Sending(token: nat)
    | MarkRead(token: nat)
    | MarkWrite(token: nat, entry: OutboxEntry)
    | ReleaseRead(token: nat)
    | ReleaseWrite(token: nat, entry: OutboxEntry)

  /** One cycle: the candidates not yet dealt with, the first being worked on. */
  datatype Publisher = Publisher(rest: seq<Candidate>, pc: PublishPc)

  datatype Delivery = Acknowledged | Refused | Aborted

  // ----- The world -----

  datatype Creation = Creation(req: Request, pending: bool)

  /**
   The idempotency collection and the creation handlers; for the record, the commands issued so
   far, the command that claimed each document, and every answer given.
   */
  datatype Claims = Claims(
    idem: map<string, Stored<Record>>, nextCas: nat, creators: map<nat, Creator>,
    issued: set<Request>, owners: map<string, Request>, responses: set<Response>)

  /**
   The reservation collection and the edit handlers; for the record, the creation of each
   reservation, every state it had, and the edits reported as done.
   */
  datatype Ledger = Ledger(
    reservations: map<ReservationKey, Stored<ReservationState>>, nextCas: nat, editors: map<nat, Editor>,
    created: map<ReservationKey, Creation>, history: map<ReservationKey, seq<ReservationState>>,
    acknowledged: set<Acknowledgement>)

  /**
   The outbox collection and the publishers; for the record, the tokens under which each event
   was claimed and sent, the number of sends, and the events the broker acknowledged.
   */
  datatype Outbox = Outbox(
    entries: map<EventKey, Stored<OutboxEntry>>, nextCas: nat, publishers: map<nat, Publisher>,
    grants: map<EventKey, set<nat>>, calls: map<EventKey, set<nat>>, sent: map<EventKey, nat>, delivered: set<EventKey>)

  datatype World = World(claims: Claims, ledger: Ledger, outbox: Outbox)

  const Initial := World(Claims(map[], 1, map[], {}, map[], {}), Ledger(map[], 1, map[], map[], map[], {}),
                         Outbox(map[], 1, map[], map[], map[], map[], {}))

  datatype Action =
    | SubmitCreate(pid: nat, cmd: Command)
    | StepCreate(pid: nat, io: Io, resource: Option<Resource>, count: int)
    | CrashCreate(pid: nat)
    | SubmitEdit(pid: nat, edit: EditCommand)
    | StepEdit(pid: nat, io: Io, conflict: bool)
    | CrashEdit(pid: nat)
    | BeginCycle(pid: nat, candidates: seq<Candidate>)
    | StepPublish(pid: nat, io: Io, delivery: Delivery, now: Instant)
    | CrashPublish(pid: nat)

  predicate SharesId(a: Request, b: Request) {
    a.cmd.ids.reservation == b.cmd.ids.reservation || a.cmd.ids.EventIds() * b.cmd.ids.EventIds() != {}
  }

  /** Generated identifiers have not been used by an earlier command. */
  predicate Fresh(req: Request, issued: set<Request>) {
    forall c :: c in issued ==> !SharesId(req, c)
  }

  function KeyOfReservation(req: Request): ReservationKey { (req.cmd.org, req.cmd.ids.reservation) }

  function KeysOfEvents(c: Creation): (EventKey, EventKey) {
    ((c.req.cmd.org, c.req.cmd.ids.createdEvent), (c.req.cmd.org, SecondEventId(c.req.cmd, c.pending)))
  }

  // ----- Steps of a creation handler -----

  function MoveCreator(w: World, pid: nat, req: Request, pc: CreatePc): World {
    w.(claims := w.claims.(creators := w.claims.creators[pid := Creator(req, pc)]))
  }

  function FinishCreator(w: World, pid: nat, req: Request, outcome: Outcome): World {
    w.(claims := w.claims.(creators := w.claims.creators - {pid}, responses := w.claims.responses + {Response(req, outcome)}))
  }

  /** The insert of the processing record under a new document key. */
  function InsertRecord(c: Claims, req: Request): Claims {
    var key := req.documentKey;
    c.(idem := c.idem[key := Stored(ProcessingRecord(req), c.nextCas)], owners := c.owners[key := req],
       nextCas := c.nextCas + 1)
  }

  function StepClaim(w: World, pid: nat, req: Request, io: Io): World {
    var taken := req.documentKey in w.claims.idem;
    var w' := if taken || !Effective(io) then w else w.(claims := InsertRecord(w.claims, req));
    match io
    case Works => MoveCreator(w', pid, req, if taken then ReadingClaim else ReadingResource)
    case AmbiguousBefore => MoveCreator(w', pid, req, ReadingClaim)
    case AmbiguousAfter => MoveCreator(w', pid, req, ReadingClaim)
    case ConflictAfter => MoveCreator(w', pid, req, ReadingClaim)
    case _ => FinishCreator(w', pid, req, Threw(StoreFailure))
  }

  function StepReadClaim(w: World, pid: nat, req: Request, io: Io): World {
    var key := req.documentKey;
    if !io.Works? || key !in w.claims.idem then FinishCreator(w, pid, req, Threw(StoreFailure))
    else
      var record := w.claims.idem[key].doc;
      match Classify(record, req.fingerprint)
      case FingerprintMismatch => FinishCreator(w, pid, req, Returned(RejectedResult(IdempotencyConflict)))
      case ExistingProcessing => MoveCreator(w, pid, req, Recovering(record))
      case ExistingTerminal =>
        FinishCreator(w, pid, req, if record.result == None then Threw(MissingResult) else Returned(Replay(record.result.value)))
  }

  function StepRecover(w: World, pid: nat, req: Request, record: Record, io: Io): World {
    if !io.Works? then FinishCreator(w, pid, req, Threw(StoreFailure))
    else
      var key: ReservationKey := (record.scope.org, record.ids.reservation);
      if key !in w.ledger.reservations then FinishCreator(w, pid, req, Returned(RejectedResult(IdempotencyInProgress)))
      else
        var loaded := w.ledger.reservations[key].doc;
        if (loaded.org, loaded.id) != key then FinishCreator(w, pid, req, Threw(StaleIdentity))
        else if !MatchesOriginal(loaded, record, req.cmd)
        then FinishCreator(w, pid, req, Returned(RejectedResult(IdempotencyConflict)))
        else MoveCreator(w, pid, req, CheckingEvents(record, loaded, false))
  }

  /** `contains_all` on one of the two creation events. */
  function StepCheckEvent(w: World, pid: nat, req: Request, record: Record, loaded: ReservationState, second: bool, io: Io)
    : World
  {
    if !io.Works? then FinishCreator(w, pid, req, Threw(StoreFailure))
    else
      var eventId := ExpectedEventIds(loaded, record)[if second then 1 else 0];
      var key: EventKey := (record.scope.org, eventId);
      if key !in w.outbox.entries then FinishCreator(w, pid, req, Returned(RejectedResult(IdempotencyInProgress)))
      else if !IsCreationEvent(w.outbox.entries[key].doc, record.scope.org, record.ids.reservation, eventId, second)
      then FinishCreator(w, pid, req, Threw(InvalidCreationEvent))
      else if !second then MoveCreator(w, pid, req, CheckingEvents(record, loaded, true))
      else
        var result := SuccessResult(loaded, record.createdAt);
        BeginCompletion(w, pid, req, record.scope, record.fingerprint, record.createdAt, result)
  }

  predicate IsCreationEvent(entry: OutboxEntry, org: Id, aggregate: Id, eventId: Id, second: bool) {
    && entry.org == org && entry.aggregate == aggregate && entry.event.eventId == eventId
    && (if second then entry.event.ReservationConfirmed? || entry.event.ReservationApprovalRequested?
        else entry.event.ReservationCreated?)
  }

  /** Begins `record_succeeded` or `record_failed_permanently` with the snapshot of an answer. */
  function BeginCompletion(w: World, pid: nat, req: Request, scope: Scope, fingerprint: string, createdAt: Instant,
                    result: CreateResult): World {
    match SnapshotFor(result, createdAt)
    case None => FinishCreator(w, pid, req, Threw(InvalidSnapshotError))
    case Some(snapshot) =>
      MoveCreator(w, pid, req, CompletionRead(Completion(scope, fingerprint, snapshot, result.reservation.Some?, result)))
  }

  /** `idempotency_document_key` of the scope to complete; for the handler's own scope, the key it claimed with. */
  function CompletionKey(scope: Scope, req: Request): string {
    if scope == req.cmd.ScopeOf() then req.documentKey else ScopeEncoding(scope)
  }

  function RejectCreation(w: World, pid: nat, req: Request, status: CreateStatus): World {
    BeginCompletion(w, pid, req, req.cmd.ScopeOf(), req.fingerprint, req.cmd.at, RejectedResult(status))
  }

  /** Any resource, or none, may be what the resource repository returns. */
  function StepReadResource(w: World, pid: nat, req: Request, io: Io, resource: Option<Resource>): World {
    if !io.Works? then FinishCreator(w, pid, req, Threw(StoreFailure))
    else match RejectResource(req.cmd, resource)
      case Some(status) => RejectCreation(w, pid, req, status)
      case None => MoveCreator(w, pid, req, Counting(resource.value))
  }

  /** Any number may be what the counting query returns. */
  function StepCount(w: World, pid: nat, req: Request, resource: Resource, io: Io, count: int): World {
    if !io.Works? then FinishCreator(w, pid, req, Threw(StoreFailure))
    else if FullyReserved(count, resource) then RejectCreation(w, pid, req, ScheduleConflict)
    else MoveCreator(w, pid, req, Persisting(resource.requiresApproval))
  }

  function NewEntry(req: Request, event: Event): OutboxEntry {
    OutboxEntry(req.cmd.org, req.cmd.ids.reservation, event, Pending, 0, None)
  }

  function InsertReservation(l: Ledger, creation: Creation): Ledger {
    var key, r := KeyOfReservation(creation.req), Created(creation.req.cmd, creation.pending);
    l.(reservations := l.reservations[key := Stored(r, l.nextCas)], nextCas := l.nextCas + 1,
       created := l.created[key := creation], history := l.history[key := [r]])
  }

  function InsertEvents(o: Outbox, creation: Creation): Outbox {
    var keys, events := KeysOfEvents(creation), CreatedEvents(creation.req.cmd, creation.pending);
    o.(entries := o.entries[keys.0 := Stored(NewEntry(creation.req, events[0]), o.nextCas)]
                           [keys.1 := Stored(NewEntry(creation.req, events[1]), o.nextCas + 1)],
       nextCas := o.nextCas + 2)
  }

  /** One transaction: the reservation and its two creation events, none of which may exist yet. */
  function StepPersist(w: World, pid: nat, req: Request, pending: bool, io: Io): World {
    var creation := Creation(req, pending);
    var keys := KeysOfEvents(creation);
    if !Effective(io) then FinishCreator(w, pid, req, Threw(StoreFailure))
    else if KeyOfReservation(req) in w.ledger.reservations || keys.0 in w.outbox.entries || keys.1 in w.outbox.entries
    then FinishCreator(w, pid, req, Threw(AlreadyExists))
    else
      var w' := w.(ledger := InsertReservation(w.ledger, creation), outbox := InsertEvents(w.outbox, creation));
      if io.Works? then MoveCreator(w', pid, req, ReadingToken(pending))
      else FinishCreator(w', pid, req, Threw(StoreFailure))
  }

  function StepReadToken(w: World, pid: nat, req: Request, pending: bool, io: Io): World {
    if !io.Works? || KeyOfReservation(req) !in w.ledger.reservations then FinishCreator(w, pid, req, Threw(StoreFailure))
    else BeginCompletion(w, pid, req, req.cmd.ScopeOf(), req.fingerprint, req.cmd.at, SuccessResult(Created(req.cmd, pending), req.cmd.at))
  }

  function StepCompletionRead(w: World, pid: nat, req: Request, c: Completion, io: Io): World {
    var key := CompletionKey(c.scope, req);
    if !io.Works? then FinishCreator(w, pid, req, Threw(StoreFailure))
    else if key !in w.claims.idem then FinishCreator(w, pid, req, Threw(MissingRecord))
    else
      var stored := w.claims.idem[key];
      if stored.doc.scope != c.scope then FinishCreator(w, pid, req, Threw(StaleIdentity))
      else match ValidateCompletion(stored.doc, c.fingerprint, c.snapshot, c.succeeded)
        case Some(error) => FinishCreator(w, pid, req, Threw(CompletionRejected(error)))
        case None =>
          if !stored.doc.status.Processing? then FinishCreator(w, pid, req, Returned(c.result))
          else MoveCreator(w, pid, req, CompletionWrite(c, stored.doc, stored.cas))
  }

  /** The replacement of a processing record by its completed form. */
  function ReplaceRecord(claims: Claims, key: string, c: Completion, record: Record): Claims {
    claims.(idem := claims.idem[key := Stored(CompletedRecord(record, c.snapshot, c.succeeded), claims.nextCas)],
            nextCas := claims.nextCas + 1)
  }

  function StepCompletionWrite(w: World, pid: nat, req: Request, c: Completion, record: Record, cas: nat, io: Io): World {
    var key := CompletionKey(c.scope, req);
    if !Effective(io) || key !in w.claims.idem then FinishCreator(w, pid, req, Threw(StoreFailure))
    else if w.claims.idem[key].cas != cas
    then (if Reported(io) then MoveCreator(w, pid, req, CompletionReconcile(c)) else FinishCreator(w, pid, req, Threw(StoreFailure)))
    else
      var w' := w.(claims := ReplaceRecord(w.claims, key, c, record));
      if io.ConflictAfter? then MoveCreator(w', pid, req, CompletionReconcile(c))
      else FinishCreator(w', pid, req, if io.Works? then Returned(c.result) else Threw(StoreFailure))
  }

  function StepReconcile(w: World, pid: nat, req: Request, c: Completion, io: Io): World {
    var key := CompletionKey(c.scope, req);
    if !io.Works? || key !in w.claims.idem then FinishCreator(w, pid, req, Threw(StoreFailure))
    else
      var record := w.claims.idem[key].doc;
      if record.scope != c.scope then FinishCreator(w, pid, req, Threw(StaleIdentity))
      else match ValidateCompletion(record, c.fingerprint, c.snapshot, c.succeeded)
        case Some(error) => FinishCreator(w, pid, req, Threw(CompletionRejected(error)))
        case None =>
          FinishCreator(w, pid, req, if record.status.Processing? then Threw(ConcurrentCompletion) else Returned(c.result))
  }

  function CreatorStep(w: World, pid: nat, io: Io, resource: Option<Resource>, count: int): World {
    if pid !in w.claims.creators then w
    else
      var req := w.claims.creators[pid].req;
      match w.claims.creators[pid].pc
      case Claiming => StepClaim(w, pid, req, io)
      case ReadingClaim => StepReadClaim(w, pid, req, io)
      case Recovering(record) => StepRecover(w, pid, req, record, io)
      case CheckingEvents(record, loaded, second) => StepCheckEvent(w, pid, req, record, loaded, second, io)
      case ReadingResource => StepReadResource(w, pid, req, io, resource)
      case Counting(r) => StepCount(w, pid, req, r, io, count)
      case Persisting(pending) => StepPersist(w, pid, req, pending, io)
      case ReadingToken(pending) => StepReadToken(w, pid, req, pending, io)
      case CompletionRead(c) => StepCompletionRead(w, pid, req, c, io)
      case CompletionWrite(c, record, cas) => StepCompletionWrite(w, pid, req, c, record, cas, io)
      case CompletionReconcile(c) => StepReconcile(w, pid, req, c, io)
  }

  // ----- Steps of an edit handler -----

  function MoveEditor(l: Ledger, pid: nat, cmd: EditCommand, pc: EditPc): Ledger {
    l.(editors := l.editors[pid := Editor(cmd, pc)])
  }

  function FinishEditor(l: Ledger, pid: nat): Ledger {
    l.(editors := l.editors - {pid})
  }

  function Past(history: map<ReservationKey, seq<ReservationState>>, key: ReservationKey): seq<ReservationState> {
    if key in history then history[key] else []
  }

  /** A replace under the right token; the new state is also appended to the history. */
  function ReplaceReservation(l: Ledger, key: ReservationKey, r: ReservationState): Ledger {
    l.(reservations := l.reservations[key := Stored(r, l.nextCas)], nextCas := l.nextCas + 1,
       history := l.history[key := Past(l.history, key) + [r]])
  }

  function StepLoad(l: Ledger, pid: nat, cmd: EditCommand, key: ReservationKey, io: Io): Ledger {
    if !io.Works? || key !in l.reservations then FinishEditor(l, pid)
    else
      var stored := l.reservations[key];
      if (stored.doc.org, stored.doc.id) != key then FinishEditor(l, pid)
      else match Decide(cmd, stored.doc)
      case Refuse(_) => FinishEditor(l, pid)
      case Apply(t) => MoveEditor(l, pid, cmd, Writing(stored.doc, stored.cas, t))
      case ApplyUnlessConflict(_, t) => MoveEditor(l, pid, cmd, CheckingConflict(stored.doc, stored.cas, t))
  }

  function StepWrite(l: Ledger, pid: nat, key: ReservationKey, loaded: ReservationState, token: nat, t: Transition, io: Io)
    : Ledger
  {
    if !Effective(io) || key !in l.reservations || l.reservations[key].cas != token || !Enabled(loaded, t)
    then FinishEditor(l, pid)
    else
      var after := Next(loaded, t);
      var l' := ReplaceReservation(FinishEditor(l, pid), key, after);
      if io.Works? then l'.(acknowledged := l'.acknowledged + {Acknowledgement(key, loaded, after)}) else l'
  }

  function EditorStep(l: Ledger, pid: nat, io: Io, conflict: bool): Ledger {
    if pid !in l.editors then l
    else
      var cmd := l.editors[pid].cmd;
      var key: ReservationKey := (cmd.org, cmd.id);
      match l.editors[pid].pc
      case Loading => StepLoad(l, pid, cmd, key, io)
      case CheckingConflict(loaded, token, t) =>
        if !io.Works? || conflict then FinishEditor(l, pid) else MoveEditor(l, pid, cmd, Writing(loaded, token, t))
      case Writing(loaded, token, t) => StepWrite(l, pid, key, loaded, token, t, io)
  }

  // ----- Steps of a publisher -----

  function MovePublisher(o: Outbox, pid: nat, rest: seq<Candidate>, pc: PublishPc): Outbox {
    o.(publishers := o.publishers[pid := Publisher(rest, pc)])
  }

  function EndCycle(o: Outbox, pid: nat): Outbox {
    o.(publishers := o.publishers - {pid})
  }

  /** On to the next candidate, or the end of the cycle. */
  function NextCandidate(o: Outbox, pid: nat, rest: seq<Candidate>): Outbox
    requires rest != []
  {
    if |rest| == 1 then EndCycle(o, pid) else MovePublisher(o, pid, rest[1..], ClaimRead)
  }

  function TokensOf(grants: map<EventKey, set<nat>>, key: EventKey): set<nat> {
    if key in grants then grants[key] else {}
  }

  function ReplaceEntry(o: Outbox, key: EventKey, entry: OutboxEntry): Outbox {
    o.(entries := o.entries[key := Stored(entry, o.nextCas)], nextCas := o.nextCas + 1)
  }

  function ClaimEntry(o: Outbox, key: EventKey, entry: OutboxEntry): Outbox {
    var o' := ReplaceEntry(o, key, entry.(status := Publishing, attempts := NextAttempt(entry.attempts)));
    o'.(grants := o.grants[key := TokensOf(o.grants, key) + {o.nextCas}])
  }

  function MarkEntry(o: Outbox, key: EventKey, entry: OutboxEntry, now: Instant): Outbox {
    ReplaceEntry(o, key, entry.(status := Published, publishedAt := Some(now)))
  }

  function ReleaseEntry(o: Outbox, key: EventKey, entry: OutboxEntry): Outbox {
    ReplaceEntry(o, key, entry.(status := Pending, publishedAt := None))
  }

  /** A call of the producer; the broker may or may not report the delivery. */
  function Send(o: Outbox, key: EventKey, token: nat, delivery: Delivery): Outbox {
    o.(calls := o.calls[key := TokensOf(o.calls, key) + {token}],
       sent := o.sent[key := (if key in o.sent then o.sent[key] else 0) + 1],
       delivered := if delivery.Acknowledged? then o.delivered + {key} else o.delivered)
  }

  /** Whether a conditional replace of the entry finds the token it expects. */
  predicate Matches(o: Outbox, key: EventKey, token: nat) {
    key in o.entries && o.entries[key].cas == token
  }

  function PublisherStep(o: Outbox, pid: nat, io: Io, delivery: Delivery, now: Instant): Outbox {
    if pid !in o.publishers || o.publishers[pid].rest == [] then o
    else
      var rest := o.publishers[pid].rest;
      var key, expected := rest[0].key, rest[0].token;
      match o.publishers[pid].pc
      case ClaimRead =>
        if !io.Works? then EndCycle(o, pid)
        else if !Matches(o, key, expected) then NextCandidate(o, pid, rest)
        else
          var entry := o.entries[key].doc;
          if entry.org != key.0 || entry.event.eventId != key.1 then EndCycle(o, pid)
          else if !entry.status.Pending? then NextCandidate(o, pid, rest)
          else MovePublisher(o, pid, rest, ClaimWrite(entry))
      case ClaimWrite(entry) =>
        if !Effective(io) then EndCycle(o, pid)
        else if !Matches(o, key, expected) then (if Reported(io) then NextCandidate(o, pid, rest) else EndCycle(o, pid))
        else
          var o' := ClaimEntry(o, key, entry);
          if io.Works? then MovePublisher(o', pid, rest, Sending(o.nextCas))
          else if io.ConflictAfter? then NextCandidate(o', pid, rest)
          else EndCycle(o', pid)
      case Sending(token) =>
        var o' := Send(o, key, token, delivery);
        (match delivery
         case Acknowledged => MovePublisher(o', pid, rest, MarkRead(token))
         case Refused => MovePublisher(o', pid, rest, ReleaseRead(token))
         case Aborted => EndCycle(o', pid))
      case MarkRead(token) =>
        if !io.Works? || !Matches(o, key, token) || !o.entries[key].doc.status.Publishing?
        then NextCandidate(o, pid, rest)
        else MovePublisher(o, pid, rest, MarkWrite(token, o.entries[key].doc))
      case MarkWrite(token, entry) =>
        NextCandidate(if Effective(io) && Matches(o, key, token) then MarkEntry(o, key, entry, now) else o, pid, rest)
      case ReleaseRead(token) =>
        if !io.Works? || !Matches(o, key, token) || !o.entries[key].doc.status.Publishing?
        then NextCandidate(o, pid, rest)
        else MovePublisher(o, pid, rest, ReleaseWrite(token, o.entries[key].doc))
      case ReleaseWrite(token, entry) =>
        NextCandidate(if Effective(io) && Matches(o, key, token) then ReleaseEntry(o, key, entry) else o, pid, rest)
  }

  // ----- Runs -----

  function Act(w: World, a: Action): World {
    match a
    case SubmitCreate(pid, cmd) =>
      var req := Prepare(cmd);
      if pid in w.claims.creators || !cmd.Fits() || !Fresh(req, w.claims.issued) then w
      else MoveCreator(w.(claims := w.claims.(issued := w.claims.issued + {req})), pid, req, Claiming)
    case StepCreate(pid, io, resource, count) => CreatorStep(w, pid, io, resource, count)
    case CrashCreate(pid) => w.(claims := w.claims.(creators := w.claims.creators - {pid}))
    case SubmitEdit(pid, edit) =>
      if pid in w.ledger.editors then w else w.(ledger := MoveEditor(w.ledger, pid, edit, Loading))
    case StepEdit(pid, io, conflict) => w.(ledger := EditorStep(w.ledger, pid, io, conflict))
    case CrashEdit(pid) => w.(ledger := FinishEditor(w.ledger, pid))
    case BeginCycle(pid, candidates) =>
      if pid in w.outbox.publishers || candidates == [] then w
      else w.(outbox := MovePublisher(w.outbox, pid, candidates, ClaimRead))
    case StepPublish(pid, io, delivery, now) => w.(outbox := PublisherStep(w.outbox, pid, io, delivery, now))
    case CrashPublish(pid) => w.(outbox := EndCycle(w.outbox, pid))
  }

  /** The state after any finite sequence of actions of any processes. */
  function Run(actions: seq<Action>): World
    decreases |actions|
  {
    if actions == [] then Initial else Act(Run(actions[..|actions| - 1]), actions[|actions| - 1])
  }
}
