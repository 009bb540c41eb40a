/** What a step of a creation handler can change besides the stores it writes: only the handler itself. */
module StepShapes {
  import opened Wrappers
  import opened Timestamp
  import opened Domain
  import opened Encoding
  import opened Idempotency
  import opened Handlers
  import opened World

  /** Where a handler can come from: the order of its steps. */
  predicate MayMove(from: CreatePc, pc: CreatePc) {
    match pc
    case Claiming => false
    case ReadingClaim => from.Claiming?
    case Recovering(_) => from.ReadingClaim?
    case CheckingEvents(_, _, second) => from.Recovering? || (from.CheckingEvents? && second)
    case ReadingResource => from.Claiming?
    case Counting(_) => from.ReadingResource?
    case Persisting(_) => from.Counting?
    case ReadingToken(pending) => from == Persisting(pending)
    case CompletionRead(c) => Begins(from, c.succeeded)
    case CompletionWrite(c, _, _) => from == CompletionRead(c)
    case CompletionReconcile(c) => from.CompletionWrite? && from.completion == c
  }

  /** The places at which a completion begins: with a rejection, or with a success. */
  predicate Begins(from: CreatePc, succeeded: bool) {
    if succeeded then from.ReadingToken? || from.CheckingEvents? else from.ReadingResource? || from.Counting?
  }

  /** The answers a handler can give at a place. */
  predicate MayAnswer(from: CreatePc, outcome: Outcome) {
    outcome.Returned? ==>
      match from
      case ReadingClaim => true
      case Recovering(_) => true
      case CheckingEvents(_, _, _) => outcome.result == RejectedResult(IdempotencyInProgress)
      case CompletionRead(c) => outcome.result == c.result
      case CompletionWrite(c, _, _) => outcome.result == c.result
      case CompletionReconcile(c) => outcome.result == c.result
      case _ => false
  }

  /** The handler goes on, or answers and ends; everything else is as in `w`. */
  ghost predicate GoesOn(w: World, w': World, pid: nat, req: Request, from: CreatePc) {
    || (exists pc :: MayMove(from, pc) && w' == MoveCreator(w, pid, req, pc))
    || (exists outcome :: MayAnswer(from, outcome) && w' == FinishCreator(w, pid, req, outcome))
  }

  /** The writes a handler at this place can make before it goes on: to the records, or to the other collections. */
  predicate Writes(w: World, w1: World, pc: CreatePc) {
    && w1.claims.creators == w.claims.creators && w1.claims.responses == w.claims.responses
    && w1.claims.issued == w.claims.issued
    && (!pc.Claiming? && !pc.CompletionWrite? ==> w1.claims == w.claims)
    && (!pc.Persisting? ==> w1.ledger == w.ledger && w1.outbox == w.outbox)
    && w1.outbox.publishers == w.outbox.publishers
  }

  ghost predicate Shaped(w: World, w': World, pid: nat, req: Request, pc: CreatePc) {
    exists w1 :: Writes(w, w1, pc) && GoesOn(w1, w', pid, req, pc)
  }

  lemma Unwritten(w: World, w': World, pid: nat, req: Request, pc: CreatePc)
    requires GoesOn(w, w', pid, req, pc)
    ensures Shaped(w, w', pid, req, pc)
  {
    hide GoesOn;
    assert Writes(w, w, pc);
  }

  lemma CompletionBegins(w: World, pid: nat, req: Request, scope: Scope, fingerprint: string, createdAt: Instant,
                         result: CreateResult, from: CreatePc)
    requires Begins(from, result.reservation.Some?)
    ensures GoesOn(w, BeginCompletion(w, pid, req, scope, fingerprint, createdAt, result), pid, req, from)
  {
    hide MoveCreator, FinishCreator, SnapshotFor;
  }

  lemma ClaimShape(w: World, pid: nat, req: Request, io: Io)
    ensures Shaped(w, StepClaim(w, pid, req, io), pid, req, Claiming)
  {
    hide MoveCreator, FinishCreator, ProcessingRecord;
    var w1 := if req.documentKey in w.claims.idem || !Effective(io) then w
              else w.(claims := InsertRecord(w.claims, req));
    assert Writes(w, w1, Claiming);
    assert GoesOn(w1, StepClaim(w, pid, req, io), pid, req, Claiming);
  }

  lemma PersistShape(w: World, pid: nat, req: Request, pending: bool, io: Io)
    ensures Shaped(w, StepPersist(w, pid, req, pending, io), pid, req, Persisting(pending))
  {
    hide MoveCreator, FinishCreator, InsertReservation, KeysOfEvents, Created, CreatedEvents;
    var pc := Persisting(pending);
    var creation, w' := Creation(req, pending), StepPersist(w, pid, req, pending, io);
    var w1 := w.(ledger := InsertReservation(w.ledger, creation), outbox := InsertEvents(w.outbox, creation));
    assert Writes(w, w1, pc) && Writes(w, w, pc);
    assert GoesOn(w1, w', pid, req, pc) || GoesOn(w, w', pid, req, pc);
  }

  lemma CompletionWriteShape(w: World, pid: nat, req: Request, c: Completion, record: Record, cas: nat, io: Io)
    ensures Shaped(w, StepCompletionWrite(w, pid, req, c, record, cas, io), pid, req, CompletionWrite(c, record, cas))
  {
    hide MoveCreator, FinishCreator, CompletedRecord, CompletionKey;
    var pc := CompletionWrite(c, record, cas);
    var w' := StepCompletionWrite(w, pid, req, c, record, cas, io);
    var w1 := w.(claims := ReplaceRecord(w.claims, CompletionKey(c.scope, req), c, record));
    assert Writes(w, w1, pc) && Writes(w, w, pc);
    assert GoesOn(w1, w', pid, req, pc) || GoesOn(w, w', pid, req, pc);
  }

  lemma ReadClaimGoesOn(w: World, pid: nat, req: Request, io: Io)
    ensures GoesOn(w, StepReadClaim(w, pid, req, io), pid, req, ReadingClaim)
  {
    hide MoveCreator, FinishCreator, Classify, Replay;
  }

  lemma RecoverGoesOn(w: World, pid: nat, req: Request, record: Record, io: Io)
    ensures GoesOn(w, StepRecover(w, pid, req, record, io), pid, req, Recovering(record))
  {
    hide MoveCreator, FinishCreator, MatchesOriginal;
  }

  lemma CheckEventGoesOn(w: World, pid: nat, req: Request, record: Record, loaded: ReservationState, second: bool, io: Io)
    ensures GoesOn(w, StepCheckEvent(w, pid, req, record, loaded, second, io), pid, req, CheckingEvents(record, loaded, second))
  {
    hide MoveCreator, FinishCreator, IsCreationEvent, ExpectedEventIds, BeginCompletion;
    CompletionBegins(w, pid, req, record.scope, record.fingerprint, record.createdAt, SuccessResult(loaded, record.createdAt),
                     CheckingEvents(record, loaded, second));
  }

  lemma RejectGoesOn(w: World, pid: nat, req: Request, status: CreateStatus, from: CreatePc)
    requires from.ReadingResource? || from.Counting?
    ensures GoesOn(w, RejectCreation(w, pid, req, status), pid, req, from)
  {
    hide GoesOn, BeginCompletion;
    CompletionBegins(w, pid, req, req.cmd.ScopeOf(), req.fingerprint, req.cmd.at, RejectedResult(status), from);
  }

  lemma ReadResourceGoesOn(w: World, pid: nat, req: Request, io: Io, resource: Option<Resource>)
    ensures GoesOn(w, StepReadResource(w, pid, req, io, resource), pid, req, ReadingResource)
  {
    hide MoveCreator, FinishCreator, RejectCreation, RejectResource;
    var rejected := RejectResource(req.cmd, resource);
    if rejected.Some? { RejectGoesOn(w, pid, req, rejected.value, ReadingResource); }
  }

  lemma CountGoesOn(w: World, pid: nat, req: Request, r: Resource, io: Io, count: int)
    ensures GoesOn(w, StepCount(w, pid, req, r, io, count), pid, req, Counting(r))
  {
    hide MoveCreator, FinishCreator, RejectCreation, FullyReserved;
    RejectGoesOn(w, pid, req, ScheduleConflict, Counting(r));
  }

  lemma TokenGoesOn(w: World, pid: nat, req: Request, pending: bool, io: Io)
    ensures GoesOn(w, StepReadToken(w, pid, req, pending, io), pid, req, ReadingToken(pending))
  {
    hide MoveCreator, FinishCreator, Created, BeginCompletion;
    CompletionBegins(w, pid, req, req.cmd.ScopeOf(), req.fingerprint, req.cmd.at,
                     SuccessResult(Created(req.cmd, pending), req.cmd.at), ReadingToken(pending));
  }

  lemma CompletionReadGoesOn(w: World, pid: nat, req: Request, c: Completion, io: Io)
    ensures GoesOn(w, StepCompletionRead(w, pid, req, c, io), pid, req, CompletionRead(c))
  {
    hide MoveCreator, FinishCreator, ValidateCompletion, CompletionKey;
  }

  lemma ReconcileGoesOn(w: World, pid: nat, req: Request, c: Completion, io: Io)
    ensures GoesOn(w, StepReconcile(w, pid, req, c, io), pid, req, CompletionReconcile(c))
  {
    hide MoveCreator, FinishCreator, ValidateCompletion, CompletionKey;
  }

  /** Every step of a creation handler writes what its place allows, and goes on or ends. */
  lemma StepShape(w: World, pid: nat, io: Io, resource: Option<Resource>, count: int)
    requires pid in w.claims.creators
    ensures var c := w.claims.creators[pid]; Shaped(w, CreatorStep(w, pid, io, resource, count), pid, c.req, c.pc)
  {
    hide Shaped, GoesOn, StepClaim, StepReadClaim, StepRecover, StepCheckEvent, StepReadResource, StepCount, StepPersist,
         StepReadToken, StepCompletionRead, StepCompletionWrite, StepReconcile;
    var req, pc := w.claims.creators[pid].req, w.claims.creators[pid].pc;
    match pc {
      case Claiming => ClaimShape(w, pid, req, io);
      case Persisting(pending) => PersistShape(w, pid, req, pending, io);
      case CompletionWrite(c, record, cas) => CompletionWriteShape(w, pid, req, c, record, cas, io);
      case ReadingClaim => ReadClaimGoesOn(w, pid, req, io);
      case Recovering(record) => RecoverGoesOn(w, pid, req, record, io);
      case CheckingEvents(record, loaded, second) => CheckEventGoesOn(w, pid, req, record, loaded, second, io);
      case ReadingResource => ReadResourceGoesOn(w, pid, req, io, resource);
      case Counting(r) => CountGoesOn(w, pid, req, r, io, count);
      case ReadingToken(pending) => TokenGoesOn(w, pid, req, pending, io);
      case CompletionRead(c) => CompletionReadGoesOn(w, pid, req, c, io);
      case CompletionReconcile(c) => ReconcileGoesOn(w, pid, req, c, io);
    }
    if !pc.Claiming? && !pc.Persisting? && !pc.CompletionWrite? {
      Unwritten(w, CreatorStep(w, pid, io, resource, count), pid, req, pc);
    }
  }

  ghost predicate NewAnswers(w: World, w': World, req: Request, pc: CreatePc) {
    forall r :: r in w'.claims.responses && r !in w.claims.responses ==> r.req == req && MayAnswer(pc, r.outcome)
  }

  /** The other handlers stay, the answers given stay, and the stores change only at the places that write them. */
  ghost predicate Framed(w: World, w': World, pid: nat, req: Request, pc: CreatePc) {
    && w'.claims.creators - {pid} == w.claims.creators - {pid}
    && (pid in w'.claims.creators ==>
          w'.claims.creators[pid].req == req && MayMove(pc, w'.claims.creators[pid].pc))
    && w.claims.responses <= w'.claims.responses && w'.claims.issued == w.claims.issued
    && NewAnswers(w, w', req, pc)
    && (!pc.Claiming? && !pc.CompletionWrite? ==>
          w'.claims.idem == w.claims.idem && w'.claims.owners == w.claims.owners && w'.claims.nextCas == w.claims.nextCas)
    && (!pc.Persisting? ==> w'.ledger == w.ledger && w'.outbox == w.outbox)
    && w'.outbox.publishers == w.outbox.publishers
  }

  lemma StepFramed(w: World, pid: nat, io: Io, resource: Option<Resource>, count: int)
    requires pid in w.claims.creators
    ensures var c := w.claims.creators[pid]; Framed(w, CreatorStep(w, pid, io, resource, count), pid, c.req, c.pc)
  {
    hide CreatorStep;
    StepShape(w, pid, io, resource, count);
    var c, w' := w.claims.creators[pid], CreatorStep(w, pid, io, resource, count);
    var w1 :| Writes(w, w1, c.pc) && GoesOn(w1, w', pid, c.req, c.pc);
    hide Shaped, GoesOn, MayMove, MayAnswer;
    GoneOn(w1, w', pid, c.req, c.pc);
  }

  /** What is left of `Framed` when no store is written. */
  ghost predicate OnlyHandler(w: World, w': World, pid: nat, req: Request, pc: CreatePc) {
    && w'.claims.creators - {pid} == w.claims.creators - {pid}
    && (pid in w'.claims.creators ==>
          w'.claims.creators[pid].req == req && MayMove(pc, w'.claims.creators[pid].pc))
    && w.claims.responses <= w'.claims.responses && NewAnswers(w, w', req, pc)
    && w' == w.(claims := w.claims.(creators := w'.claims.creators, responses := w'.claims.responses))
  }

  lemma Moved(w: World, pid: nat, req: Request, pc: CreatePc, next: CreatePc)
    requires MayMove(pc, next)
    ensures OnlyHandler(w, MoveCreator(w, pid, req, next), pid, req, pc)
  {
    hide MayMove, MayAnswer;
  }

  lemma Ended(w: World, pid: nat, req: Request, pc: CreatePc, outcome: Outcome)
    requires MayAnswer(pc, outcome)
    ensures OnlyHandler(w, FinishCreator(w, pid, req, outcome), pid, req, pc)
  {
    hide MayMove, MayAnswer;
  }

  lemma GoneOn(w: World, w': World, pid: nat, req: Request, pc: CreatePc)
    requires GoesOn(w, w', pid, req, pc)
    ensures OnlyHandler(w, w', pid, req, pc)
  {
    hide MayMove, MayAnswer, MoveCreator, FinishCreator, OnlyHandler;
    if next :| MayMove(pc, next) && w' == MoveCreator(w, pid, req, next) {
      Moved(w, pid, req, pc, next);
    } else {
      var outcome :| MayAnswer(pc, outcome) && w' == FinishCreator(w, pid, req, outcome);
      Ended(w, pid, req, pc, outcome);
    }
  }

  predicate SameHandler(w: World, w': World, pid: nat) {
    && (pid in w'.claims.creators <==> pid in w.claims.creators)
    && (pid in w.claims.creators ==> w'.claims.creators[pid] == w.claims.creators[pid])
  }

  /** A step leaves the other handlers where they are. */
  lemma OthersAlone(w: World, pid: nat, io: Io, resource: Option<Resource>, count: int, other: nat)
    requires other != pid
    ensures SameHandler(w, CreatorStep(w, pid, io, resource, count), other)
  {
    if pid in w.claims.creators {
      hide CreatorStep;
      StepFramed(w, pid, io, resource, count);
      var before, after := w.claims.creators - {pid}, CreatorStep(w, pid, io, resource, count).claims.creators - {pid};
      assert other in w.claims.creators <==> other in before;
      assert other in CreatorStep(w, pid, io, resource, count).claims.creators <==> other in after;
      if other in before { assert before[other] == w.claims.creators[other]; }
    }
  }
}
