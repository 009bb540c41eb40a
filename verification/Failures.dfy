/**
 What an access that fails leaves behind, and how the handlers that have to find out end: a store
 that took effect did what it does when it works, one that did not did nothing.
 */
module Failures {
  import opened Wrappers
  import opened Timestamp
  import opened Domain
  import opened Idempotency
  import opened Handlers
  import opened World
  import opened CreationInvariant
  import opened SystemInvariant
  import opened SystemTheorems
  import opened Retries
  import Steps = CreationSteps
  import StepShapes
  import History = ReservationHistory
  import Books = OutboxInvariant

  // ----- Creation handlers -----

  /** The three collections, whatever the handlers at work on them and the answers they gave. */
  predicate SameStores(w: World, w': World) {
    && w'.claims.idem == w.claims.idem && w'.claims.owners == w.claims.owners && w'.claims.nextCas == w.claims.nextCas
    && w'.ledger == w.ledger && w'.outbox == w.outbox
  }

  /** The handler goes on where it has to find out what happened: to a claim, or to a completion. Otherwise it fails. */
  predicate FailedHandler(w: World, w': World, pid: nat, req: Request, pc: CreatePc, io: Io) {
    if pc.Claiming? && io != FailsBefore && io != FailsAfter then
      Steps.Runs(w', pid, req, ReadingClaim) && w'.claims.responses == w.claims.responses
    else if pc.CompletionWrite? && io == ConflictAfter then
      Steps.Runs(w', pid, req, CompletionReconcile(pc.completion)) && w'.claims.responses == w.claims.responses
    else pid !in w'.claims.creators && w'.claims.responses == w.claims.responses + {Response(req, Threw(StoreFailure))}
  }

  /** What a failing step does, beside the step that works. */
  predicate FailsLike(w: World, done: World, w': World, pid: nat, req: Request, pc: CreatePc, io: Io) {
    SameStores(if Effective(io) then done else w, w') && FailedHandler(w, w', pid, req, pc, io)
  }

  lemma FailedClaim(w: World, pid: nat, req: Request, io: Io)
    requires !io.Works?
    ensures FailsLike(w, StepClaim(w, pid, req, Works), StepClaim(w, pid, req, io), pid, req, Claiming, io)
  {
    hide ProcessingRecord;
  }

  lemma FailedPersist(w: World, pid: nat, req: Request, pending: bool, io: Io)
    requires Inv(w) && Steps.Runs(w, pid, req, Persisting(pending)) && !io.Works?
    ensures FailsLike(w, StepPersist(w, pid, req, pending, Works), StepPersist(w, pid, req, pending, io), pid, req,
                      Persisting(pending), io)
  {
    hide Inv, CreationInv, History.HistoryInv, Books.OutboxInv, PreparedOk, SharedOk, KeysOk, Created, KeysOfEvents,
         InsertEvents, InsertReservation;
    Parts(w);
    Steps.Now(w, pid, req, Persisting(pending));
    Steps.LedgerKeys(w.ledger);
    Steps.NothingStored(w, req, pending);
  }

  lemma CompletionStored(w: World, pid: nat, req: Request, pc: CreatePc)
    requires Inv(w) && Steps.Runs(w, pid, req, pc)
    requires pc.CompletionRead? || pc.CompletionWrite? || pc.CompletionReconcile?
    ensures CompletionKey(pc.completion.scope, req) == req.documentKey && req.documentKey in w.claims.idem
  {
    hide Inv, CreationInv, History.HistoryInv, Books.OutboxInv, PreparedOk, SharedOk, KeysOk, SnapshotOf, ResultOf,
         RejectedResult;
    Parts(w);
    Steps.Now(w, pid, req, pc);
  }

  lemma FailedCompletion(w: World, pid: nat, req: Request, c: Completion, record: Record, cas: nat, io: Io)
    requires Inv(w) && Steps.Runs(w, pid, req, CompletionWrite(c, record, cas)) && !io.Works?
    ensures FailsLike(w, StepCompletionWrite(w, pid, req, c, record, cas, Works),
                      StepCompletionWrite(w, pid, req, c, record, cas, io), pid, req, CompletionWrite(c, record, cas), io)
  {
    hide Inv, CompletedRecord, CompletionKey;
    CompletionStored(w, pid, req, CompletionWrite(c, record, cas));
  }

  /** A read that fails ends its handler, and one that works changes no store. */
  lemma FailedRead(w: World, pid: nat, io: Io, resource: Option<Resource>, count: int)
    requires pid in w.claims.creators && !io.Works?
    requires var pc := w.claims.creators[pid].pc; !pc.Claiming? && !pc.Persisting? && !pc.CompletionWrite?
    ensures var c := w.claims.creators[pid];
      FailsLike(w, CreatorStep(w, pid, Works, resource, count), CreatorStep(w, pid, io, resource, count), pid, c.req, c.pc, io)
  {
    hide Classify, MatchesOriginal, IsCreationEvent, ExpectedEventIds, RejectResource, RejectCreation, BeginCompletion,
         ValidateCompletion, FullyReserved;
    StepShapes.StepFramed(w, pid, Works, resource, count);
    assert CreatorStep(w, pid, io, resource, count) == FinishCreator(w, pid, w.claims.creators[pid].req, Threw(StoreFailure));
    hide CreatorStep;
  }

  /**
   In every reachable state, a step of a creation handler that fails leaves the stores as the working
   step would have, if it took effect, and as they were, if it did not. The handler answers with the
   error of the store, except after a claim that may have taken effect and after a completed record
   that is reported as a conflict: these it reads again.
   */
  lemma FailedStep(actions: seq<Action>, pid: nat, io: Io, resource: Option<Resource>, count: int)
    requires pid in Run(actions).claims.creators && !io.Works?
    ensures var w, c := Run(actions), Run(actions).claims.creators[pid];
      FailsLike(w, CreatorStep(w, pid, Works, resource, count), CreatorStep(w, pid, io, resource, count), pid, c.req, c.pc, io)
  {
    hide Run, Inv, FailsLike, StepClaim, StepPersist, StepCompletionWrite, StepReadClaim, StepRecover, StepCheckEvent,
         StepReadResource, StepCount, StepReadToken, StepCompletionRead, StepReconcile;
    RunKeeps(actions);
    var w := Run(actions);
    var req, pc := w.claims.creators[pid].req, w.claims.creators[pid].pc;
    if pc.Claiming? {
      FailedClaim(w, pid, req, io);
    } else if pc.Persisting? {
      FailedPersist(w, pid, req, pc.pending, io);
    } else if pc.CompletionWrite? {
      FailedCompletion(w, pid, req, pc.completion, pc.record, pc.cas, io);
    } else {
      FailedRead(w, pid, io, resource, count);
    }
  }

  // ----- Handlers that have to find out -----

  /** `n` steps of a handler that runs alone with working stores. */
  function Alone(w: World, pid: nat, n: nat): World
    decreases n
  {
    if n == 0 then w else Alone(OneStep(w, pid), pid, n - 1)
  }

  lemma {:induction false} AnsweredAlone(w: World, w': World, pid: nat, req: Request, result: CreateResult, n: nat)
    requires Answered(w, w', pid, req, result)
    ensures Alone(w', pid, n) == w'
    decreases n
  {
    hide OneStep, Answered;
    if n > 0 {
      AnsweredStays(w, w', pid, req, result);
      AnsweredAlone(w, w', pid, req, result, n - 1);
    }
  }

  lemma Reconciles(w: World, pid: nat, req: Request, c: Completion)
    requires Inv(w) && Steps.Runs(w, pid, req, CompletionReconcile(c))
    ensures Answered(w, OneStep(w, pid), pid, req, c.result)
  {
    hide Inv, ValidateCompletion, CompletionKey;
    CompletionStored(w, pid, req, CompletionReconcile(c));
    RecordedOutcome(w, pid, req, c);
  }

  lemma RecordedOutcome(w: World, pid: nat, req: Request, c: Completion)
    requires Inv(w) && Steps.Runs(w, pid, req, CompletionReconcile(c)) && req.documentKey in w.claims.idem
    ensures var record := w.claims.idem[req.documentKey].doc;
      && record.scope == c.scope && ValidateCompletion(record, c.fingerprint, c.snapshot, c.succeeded) == None
      && !record.status.Processing?
  {
    hide Inv, CreationInv, History.HistoryInv, Books.OutboxInv, PreparedOk, SharedOk, KeysOk, ValidateCompletion, ReconcileOk;
    Parts(w);
    Steps.Now(w, pid, req, CompletionReconcile(c));
    OutcomeValidates(SharedOf(w), w.claims.issued, req, c);
  }

  lemma OutcomeValidates(s: Shared, issued: set<Request>, req: Request, c: Completion)
    requires SharedOk(s, issued) && KeysOk(issued) && req in issued && ReconcileOk(c, req, s)
    ensures var record := s.idem[req.documentKey].doc;
      && record.scope == c.scope && ValidateCompletion(record, c.fingerprint, c.snapshot, c.succeeded) == None
      && !record.status.Processing?
  {
    hide SharedOk, KeysOk, ValidateCompletion, ProcessingRecord, ResponseOk, CompletionOk;
    if c.succeeded {
      Steps.CompletionValidates(s, issued, req, c);
    } else {
      Steps.RejectionValidates(s, issued, req, c);
    }
  }

  /** The replace works, or the record has been completed and is read once more. */
  lemma Writes(w: World, pid: nat, req: Request, c: Completion, record: Record, cas: nat)
    requires Inv(w) && Steps.Runs(w, pid, req, CompletionWrite(c, record, cas))
    ensures req.documentKey in w.claims.idem
    ensures var w' := OneStep(w, pid);
      if w.claims.idem[req.documentKey].cas == cas then Answered(w, w', pid, req, c.result)
      else Standing(w, w', pid, req, CompletionReconcile(c))
  {
    hide Inv, CompletedRecord, CompletionKey;
    CompletionStored(w, pid, req, CompletionWrite(c, record, cas));
  }

  lemma ReadsRecord(w: World, pid: nat, req: Request, c: Completion)
    requires Inv(w) && Steps.Runs(w, pid, req, CompletionRead(c))
    ensures req.documentKey in w.claims.idem
    ensures var w', stored := OneStep(w, pid), w.claims.idem[req.documentKey];
      if stored.doc.status.Processing? then Standing(w, w', pid, req, CompletionWrite(c, stored.doc, stored.cas))
      else Answered(w, w', pid, req, c.result)
  {
    hide Inv, ValidateCompletion, CompletionKey;
    CompletionStored(w, pid, req, CompletionRead(c));
    CompletionAccepted(w, pid, req, c);
  }

  /**
   In every reachable state, a handler that has begun to complete its record, run alone with working
   stores, answers in at most three steps what it set out to answer, and touches neither
   reservations nor events.
   */
  lemma CompletionAnswers(actions: seq<Action>, pid: nat)
    requires pid in Run(actions).claims.creators
    requires var pc := Run(actions).claims.creators[pid].pc; pc.CompletionRead? || pc.CompletionWrite? || pc.CompletionReconcile?
    ensures var w, c := Run(actions), Run(actions).claims.creators[pid];
      Answered(w, Alone(w, pid, 3), pid, c.req, c.pc.completion.result)
  {
    hide Run, Inv, OneStep, Answered, Standing;
    RunKeeps(actions);
    var w := Run(actions);
    var req, pc := w.claims.creators[pid].req, w.claims.creators[pid].pc;
    var c := pc.completion;
    match pc {
      case CompletionRead(_) =>
        ReadsRecord(w, pid, req, c);
        var stored := w.claims.idem[req.documentKey];
        if stored.doc.status.Processing? {
          StepInv(w, pid);
          var w1 := OneStep(w, pid);
          WritesCompletion(w, w1, pid, req, c, stored.doc, stored.cas);
          AnsweredAlone(w, OneStep(w1, pid), pid, req, c.result, 1);
        } else {
          AnsweredAlone(w, OneStep(w, pid), pid, req, c.result, 2);
        }
      case CompletionWrite(_, record, cas) =>
        Writes(w, pid, req, c, record, cas);
        var w1 := OneStep(w, pid);
        if w.claims.idem[req.documentKey].cas == cas {
          AnsweredAlone(w, w1, pid, req, c.result, 2);
        } else {
          StepInv(w, pid);
          Stands(w, w1, pid, req, CompletionReconcile(c));
          Reconciles(w1, pid, req, c);
          AnsweredSince(w, w1, OneStep(w1, pid), pid, req, c.result);
          AnsweredAlone(w, OneStep(w1, pid), pid, req, c.result, 1);
        }
      case CompletionReconcile(_) =>
        Reconciles(w, pid, req, c);
        AnsweredAlone(w, OneStep(w, pid), pid, req, c.result, 2);
    }
  }

  lemma Stands(w: World, w': World, pid: nat, req: Request, pc: CreatePc)
    requires Standing(w, w', pid, req, pc)
    ensures Steps.Runs(w', pid, req, pc)
    ensures w'.ledger == w.ledger && w'.outbox == w.outbox && w'.claims.responses == w.claims.responses
  {
  }

  lemma AnsweredSince(w: World, w': World, w'': World, pid: nat, req: Request, result: CreateResult)
    requires Answered(w', w'', pid, req, result)
    requires w'.ledger == w.ledger && w'.outbox == w.outbox && w'.claims.responses == w.claims.responses
    ensures Answered(w, w'', pid, req, result)
  {
  }

  /**
   In every reachable state, a handler that reads a claim again, run alone with working stores, is
   answered like a second call of the scope; if nothing was claimed after all, it fails.
   */
  lemma RereadAnswers(actions: seq<Action>, pid: nat)
    requires pid in Run(actions).claims.creators && Run(actions).claims.creators[pid].pc.ReadingClaim?
    ensures var w, req := Run(actions), Run(actions).claims.creators[pid].req;
      if req.documentKey in w.claims.idem then
        && req == Prepare(req.cmd) && req.documentKey in w.claims.owners
        && Answered(w, Alone(w, pid, 6), pid, req, RetryAnswer(w, req.cmd))
      else OneStep(w, pid) == FinishCreator(w, pid, req, Threw(StoreFailure))
  {
    hide Run, Inv, OneStep, Answered, Prepare, RetryAnswer;
    RunKeeps(actions);
    var w := Run(actions);
    var req := w.claims.creators[pid].req;
    IssuedPrepared(w, pid);
    if req.documentKey in w.claims.idem {
      OwnedKeys(w);
      SixAlone(w, pid);
      AfterReading(w, w, pid, req.cmd);
    } else {
      NothingClaimed(w, pid, req);
    }
  }

  lemma NothingClaimed(w: World, pid: nat, req: Request)
    requires Steps.Runs(w, pid, req, ReadingClaim) && req.documentKey !in w.claims.idem
    ensures OneStep(w, pid) == FinishCreator(w, pid, req, Threw(StoreFailure))
  {
  }

  lemma SixAlone(w: World, pid: nat)
    ensures var w4 := OneStep(OneStep(w, pid), pid);
      Alone(w, pid, 6) == OneStep(OneStep(OneStep(OneStep(w4, pid), pid), pid), pid)
  {
    hide OneStep;
    var w2 := OneStep(OneStep(w, pid), pid);
    assert Alone(w, pid, 6) == Alone(w2, pid, 4);
    var w4 := OneStep(OneStep(w2, pid), pid);
    assert Alone(w2, pid, 4) == Alone(w4, pid, 2);
  }

  lemma IssuedPrepared(w: World, pid: nat)
    requires Inv(w) && pid in w.claims.creators
    ensures var req := w.claims.creators[pid].req; req == Prepare(req.cmd)
  {
    hide SharedOk, CreatorOk, KeysOk, ResponsesOk, History.HistoryInv, Books.OutboxInv;
    Parts(w);
  }

  // ----- Edit handlers -----

  predicate SameReservations(l: Ledger, l': Ledger) {
    && l'.reservations == l.reservations && l'.nextCas == l.nextCas
    && l'.created == l.created && l'.history == l.history
  }

  /** What a failing step of an edit handler does, beside the step that works. */
  predicate FailsEdit(l: Ledger, done: Ledger, l': Ledger, pid: nat, io: Io) {
    && SameReservations(if Effective(io) then done else l, l')
    && l'.editors == l.editors - {pid} && l'.acknowledged == l.acknowledged
  }

  lemma FailedLoad(l: Ledger, pid: nat, cmd: EditCommand, key: ReservationKey, io: Io)
    requires !io.Works?
    ensures FailsEdit(l, StepLoad(l, pid, cmd, key, Works), StepLoad(l, pid, cmd, key, io), pid, io)
  {
    hide Decide;
  }

  lemma FailedWrite(l: Ledger, pid: nat, key: ReservationKey, loaded: ReservationState, token: nat, t: Transition, io: Io)
    requires !io.Works?
    ensures FailsEdit(l, StepWrite(l, pid, key, loaded, token, t, Works), StepWrite(l, pid, key, loaded, token, t, io), pid, io)
  {
    hide Enabled, Next;
  }

  /**
   An edit handler whose access fails ends without reporting the edit as done; the reservations are
   as the working step would have left them, if it took effect, and as they were, if it did not.
   */
  lemma FailedEdit(l: Ledger, pid: nat, io: Io, conflict: bool)
    requires pid in l.editors && !io.Works?
    ensures FailsEdit(l, EditorStep(l, pid, Works, conflict), EditorStep(l, pid, io, conflict), pid, io)
  {
    hide StepLoad, StepWrite;
    var cmd, pc := l.editors[pid].cmd, l.editors[pid].pc;
    match pc
    case Loading => FailedLoad(l, pid, cmd, (cmd.org, cmd.id), io);
    case CheckingConflict(_, _, _) =>
    case Writing(loaded, token, t) => FailedWrite(l, pid, (cmd.org, cmd.id), loaded, token, t, io);
  }

  // ----- Publishers -----

  /** The publisher goes on to its next candidate, or ends with its last one. */
  predicate Advances(o: Outbox, pid: nat, rest: seq<Candidate>) {
    if |rest| <= 1 then pid !in o.publishers
    else pid in o.publishers && o.publishers[pid] == Publisher(rest[1..], ClaimRead)
  }

  /** The entries, their tokens, and what the broker has seen of them. */
  predicate SameEntries(o: Outbox, o': Outbox) {
    && o'.entries == o.entries && o'.nextCas == o.nextCas && o'.grants == o.grants
    && o'.calls == o.calls && o'.sent == o.sent && o'.delivered == o.delivered
  }

  lemma CycleFrames(o: Outbox, pid: nat, rest: seq<Candidate>, pc: PublishPc)
    ensures SameEntries(o, EndCycle(o, pid)) && pid !in EndCycle(o, pid).publishers
    ensures SameEntries(o, MovePublisher(o, pid, rest, pc))
    ensures rest != [] ==> SameEntries(o, NextCandidate(o, pid, rest)) && Advances(NextCandidate(o, pid, rest), pid, rest)
  {
  }

  /** What a failing step of a publisher does, beside the step that works. */
  predicate FailsPublishing(o: Outbox, done: Outbox, o': Outbox, pid: nat, io: Io, ends: bool)
    requires pid in o.publishers
  {
    && SameEntries(if Effective(io) then done else o, o')
    && if ends then pid !in o'.publishers else Advances(o', pid, o.publishers[pid].rest)
  }

  predicate Reading(pc: PublishPc) { pc.ClaimRead? || pc.MarkRead? || pc.ReleaseRead? }

  /** Reading an entry changes none. */
  lemma ReadFrames(o: Outbox, pid: nat, io: Io, delivery: Delivery, now: Instant)
    requires pid in o.publishers && o.publishers[pid].rest != [] && Reading(o.publishers[pid].pc)
    ensures SameEntries(o, PublisherStep(o, pid, io, delivery, now))
    ensures var o', rest := PublisherStep(o, pid, io, delivery, now), o.publishers[pid].rest;
      !io.Works? ==> if o.publishers[pid].pc.ClaimRead? then pid !in o'.publishers else Advances(o', pid, rest)
  {
    hide EndCycle, MovePublisher, NextCandidate, ClaimEntry, MarkEntry, ReleaseEntry, Send, Advances, SameEntries;
    var rest, pc := o.publishers[pid].rest, o.publishers[pid].pc;
    var key := rest[0].key;
    CycleFrames(o, pid, rest, pc);
    if key in o.entries {
      var entry := o.entries[key].doc;
      match pc {
        case ClaimRead => CycleFrames(o, pid, rest, ClaimWrite(entry));
        case MarkRead(token) => CycleFrames(o, pid, rest, MarkWrite(token, entry));
        case ReleaseRead(token) => CycleFrames(o, pid, rest, ReleaseWrite(token, entry));
      }
    }
  }

  lemma FailedReading(o: Outbox, pid: nat, io: Io, delivery: Delivery, now: Instant)
    requires pid in o.publishers && o.publishers[pid].rest != [] && !io.Works? && Reading(o.publishers[pid].pc)
    ensures FailsPublishing(o, PublisherStep(o, pid, Works, delivery, now), PublisherStep(o, pid, io, delivery, now), pid, io,
                            o.publishers[pid].pc.ClaimRead?)
  {
    hide PublisherStep, Advances;
    ReadFrames(o, pid, io, delivery, now);
    ReadFrames(o, pid, Works, delivery, now);
  }

  lemma FailedClaiming(o: Outbox, pid: nat, io: Io, delivery: Delivery, now: Instant)
    requires pid in o.publishers && o.publishers[pid].rest != [] && !io.Works? && o.publishers[pid].pc.ClaimWrite?
    ensures FailsPublishing(o, PublisherStep(o, pid, Works, delivery, now), PublisherStep(o, pid, io, delivery, now), pid, io,
                            io != ConflictAfter)
  {
    hide EndCycle, MovePublisher, NextCandidate, ClaimEntry, MarkEntry, ReleaseEntry, Send, Advances;
    var rest, pc := o.publishers[pid].rest, o.publishers[pid].pc;
    CycleFrames(o, pid, rest, pc);
    CycleFrames(ClaimEntry(o, rest[0].key, pc.entry), pid, rest, Sending(o.nextCas));
  }

  lemma FailedWriting(o: Outbox, pid: nat, io: Io, delivery: Delivery, now: Instant)
    requires pid in o.publishers && o.publishers[pid].rest != [] && !io.Works? && (o.publishers[pid].pc.MarkWrite? || o.publishers[pid].pc.ReleaseWrite?)
    ensures FailsPublishing(o, PublisherStep(o, pid, Works, delivery, now), PublisherStep(o, pid, io, delivery, now), pid, io,
                            false)
  {
    hide EndCycle, MovePublisher, NextCandidate, ClaimEntry, MarkEntry, ReleaseEntry, Send, Advances;
    var rest, pc := o.publishers[pid].rest, o.publishers[pid].pc;
    CycleFrames(o, pid, rest, pc);
    CycleFrames(MarkEntry(o, rest[0].key, pc.entry, now), pid, rest, pc);
    CycleFrames(ReleaseEntry(o, rest[0].key, pc.entry), pid, rest, pc);
  }

  /**
   A publisher whose access to the outbox fails: before it has claimed its candidate it ends, and
   after that it goes on to the next candidate. The entries and their tokens are as the working step
   would have left them, if it took effect, and as they were, if it did not.
   */
  lemma FailedPublisher(o: Outbox, pid: nat, io: Io, delivery: Delivery, now: Instant)
    requires pid in o.publishers && o.publishers[pid].rest != [] && !io.Works? && !o.publishers[pid].pc.Sending?
    ensures var pc := o.publishers[pid].pc;
      FailsPublishing(o, PublisherStep(o, pid, Works, delivery, now), PublisherStep(o, pid, io, delivery, now), pid, io,
                      pc.ClaimRead? || (pc.ClaimWrite? && io != ConflictAfter))
  {
    hide PublisherStep, FailsPublishing;
    var pc := o.publishers[pid].pc;
    if Reading(pc) {
      FailedReading(o, pid, io, delivery, now);
    } else if pc.ClaimWrite? {
      FailedClaiming(o, pid, io, delivery, now);
    } else {
      FailedWriting(o, pid, io, delivery, now);
    }
  }
}
