/** What a second call with the same key is answered. */
module Retries {
  import opened Wrappers
  import opened Timestamp
  import opened Domain
  import opened Idempotency
  import opened Handlers
  import opened World
  import opened CreationInvariant
  import opened SystemInvariant
  import opened SystemTheorems
  import opened Runs
  import Steps = CreationSteps
  import History = ReservationHistory
  import Books = OutboxInvariant

  // ----- A second call, run alone -----

  /** What a call whose scope is already claimed is answered, from what is stored before the call. */
  function RetryAnswer(w: World, cmd: Command): CreateResult
    requires Prepare(cmd).documentKey in w.claims.idem && Prepare(cmd).documentKey in w.claims.owners
  {
    var k := Prepare(cmd).documentKey;
    var record, owner := w.claims.idem[k].doc, w.claims.owners[k];
    var key := KeyOfReservation(owner);
    if owner.cmd.Payload() != cmd.Payload() then RejectedResult(IdempotencyConflict)
    else if record.status.Processing? then
      if key !in w.ledger.created then RejectedResult(IdempotencyInProgress)
      else if |Past(w.ledger.history, key)| > 1 then RejectedResult(IdempotencyConflict)
      else ResultOf(owner, w.ledger.created[key].pending)
    else if record.result.Some? then Replay(record.result.value)
    else RejectedResult(IdempotencyInProgress)
  }

  function Call(pid: nat, cmd: Command): seq<Action> {
    var step := StepCreate(pid, Works, None, 0);
    [SubmitCreate(pid, cmd), step, step, step] + [step, step, step, step]
  }

  /** The handler stands at `pc`, and nothing but itself has changed since `w`. */
  predicate Standing(w: World, w': World, pid: nat, req: Request, pc: CreatePc) {
    && Steps.Runs(w', pid, req, pc) && w'.ledger == w.ledger && w'.outbox == w.outbox
    && w'.claims.idem == w.claims.idem && w'.claims.owners == w.claims.owners && w'.claims.responses == w.claims.responses
  }

  /** The handler has answered `result`, and reservations and events are as in `w`. */
  predicate Answered(w: World, w': World, pid: nat, req: Request, result: CreateResult) {
    && pid !in w'.claims.creators && w'.ledger == w.ledger && w'.outbox == w.outbox
    && w'.claims.responses == w.claims.responses + {Response(req, Returned(result))}
  }

  function OneStep(w: World, pid: nat): World { Act(w, StepCreate(pid, Works, None, 0)) }

  lemma AnsweredStays(w: World, w': World, pid: nat, req: Request, result: CreateResult)
    requires Answered(w, w', pid, req, result)
    ensures OneStep(w', pid) == w'
  {
    hide StepClaim, StepReadClaim, StepRecover, StepCheckEvent, StepReadResource, StepCount, StepPersist, StepReadToken,
         StepCompletionRead, StepCompletionWrite, StepReconcile;
  }

  lemma Claims(w: World, w': World, pid: nat, req: Request)
    requires Standing(w, w', pid, req, Claiming) && req.documentKey in w.claims.idem
    ensures Standing(w, OneStep(w', pid), pid, req, ReadingClaim)
  {
  }

  lemma Reads(w: World, w': World, pid: nat, cmd: Command)
    requires Inv(w') && Prepare(cmd).documentKey in w.claims.idem && Prepare(cmd).documentKey in w.claims.owners
    requires Standing(w, w', pid, Prepare(cmd), ReadingClaim)
    ensures var k := Prepare(cmd).documentKey;
      if w.claims.owners[k].cmd.Payload() == cmd.Payload() && w.claims.idem[k].doc.status.Processing?
      then Standing(w, OneStep(w', pid), pid, Prepare(cmd), Recovering(w.claims.idem[k].doc))
           && w.claims.idem[k].doc == ProcessingRecord(w.claims.owners[k])
      else Answered(w, OneStep(w', pid), pid, Prepare(cmd), RetryAnswer(w, cmd))
  {
    PreparedCommand(cmd);
    hide Inv, CreationInv, SharedOk, KeysOk, Agree, Replay, Prepare, SnapshotOf, ProcessingRecord;
    var req := Prepare(cmd);
    Parts(w');
    Steps.Now(w', pid, req, ReadingClaim);
    Steps.ReadRecord(SharedOf(w'), w'.claims.issued, req);
    AgreeMeans(req, w.claims.owners[req.documentKey]);
    RecordFacts(w.claims.idem[req.documentKey].doc, w.claims.owners[req.documentKey], w.ledger.created);
  }

  lemma RecordFacts(record: Record, owner: Request, created: map<ReservationKey, Creation>)
    requires RecordOk(record, owner, created)
    ensures record.fingerprint == owner.fingerprint && (record.status.Processing? <==> record.result == None)
    ensures record.status.Processing? ==> record == ProcessingRecord(owner)
  {
    hide SnapshotOf;
  }

  lemma Recovers(w: World, w': World, pid: nat, cmd: Command, record: Record)
    requires Inv(w') && Prepare(cmd).documentKey in w.claims.idem && Prepare(cmd).documentKey in w.claims.owners
    requires Standing(w, w', pid, Prepare(cmd), Recovering(record)) && record == w.claims.idem[Prepare(cmd).documentKey].doc
    requires w.claims.owners[Prepare(cmd).documentKey].cmd.Payload() == cmd.Payload()
    requires record == ProcessingRecord(w.claims.owners[Prepare(cmd).documentKey])
    ensures var owner, w'' := w.claims.owners[Prepare(cmd).documentKey], OneStep(w', pid);
      var key := KeyOfReservation(owner);
      if key in w.ledger.created && |Past(w.ledger.history, key)| <= 1
      then key in w.ledger.reservations
           && Standing(w, w'', pid, Prepare(cmd), CheckingEvents(record, w.ledger.reservations[key].doc, false))
      else Answered(w, w'', pid, Prepare(cmd), RetryAnswer(w, cmd))
  {
    hide Inv, CreationInv, History.HistoryInv, Books.OutboxInv, PreparedOk, Prepare, StepRecover, ResultOf;
    Parts(w');
    Steps.LedgerKeys(w'.ledger);
    RecoverStep(w', pid, Prepare(cmd), record);
  }

  lemma Checks(w: World, w': World, pid: nat, req: Request, record: Record, loaded: ReservationState, second: bool)
    requires Inv(w') && Standing(w, w', pid, req, CheckingEvents(record, loaded, second))
    ensures var w'' := OneStep(w', pid);
      if !second then Standing(w, w'', pid, req, CheckingEvents(record, loaded, true))
      else
        var k := req.documentKey;
        && k in w.claims.owners && KeyOfReservation(w.claims.owners[k]) in w.ledger.created
        && var owner, pending := w.claims.owners[k], w.ledger.created[KeyOfReservation(w.claims.owners[k])].pending;
           Standing(w, w'', pid, req, CompletionRead(Completion(record.scope, record.fingerprint,
                                                                SnapshotOf(owner, pending), true,
                                                                ResultOf(owner, pending))))
  {
    hide Inv, StepCheckEvent, SnapshotOf, ResultOf;
    CheckStep(w', pid, req, record, loaded, second);
  }

  lemma ReadsCompletion(w: World, w': World, pid: nat, req: Request, c: Completion)
    requires Inv(w') && Standing(w, w', pid, req, CompletionRead(c)) && req.documentKey in w.claims.idem
    requires w.claims.idem[req.documentKey].doc.status.Processing?
    ensures var stored := w.claims.idem[req.documentKey];
      Standing(w, OneStep(w', pid), pid, req, CompletionWrite(c, stored.doc, stored.cas))
  {
    hide Inv, ValidateCompletion;
    CompletionScope(w', pid, req, CompletionRead(c));
    CompletionAccepted(w', pid, req, c);
  }

  lemma CompletionAccepted(w: World, pid: nat, req: Request, c: Completion)
    requires Inv(w) && Steps.Runs(w, pid, req, CompletionRead(c)) && req.documentKey in w.claims.idem
    ensures var record := w.claims.idem[req.documentKey].doc;
      record.scope == c.scope && ValidateCompletion(record, c.fingerprint, c.snapshot, c.succeeded) == None
  {
    hide Inv, CreationInv, History.HistoryInv, Books.OutboxInv, PreparedOk, SharedOk, KeysOk, ValidateCompletion,
         ProcessingRecord;
    Parts(w);
    Steps.Now(w, pid, req, CompletionRead(c));
    Steps.CompletionValidates(SharedOf(w), w.claims.issued, req, c);
  }

  lemma CompletionScope(w: World, pid: nat, req: Request, pc: CreatePc)
    requires Inv(w) && Steps.Runs(w, pid, req, pc) && (pc.CompletionRead? || pc.CompletionWrite?)
    ensures pc.completion.scope == req.cmd.ScopeOf()
  {
    hide Inv, CreationInv, SharedOk, KeysOk, SnapshotOf, ResultOf;
    Parts(w);
    Steps.Now(w, pid, req, pc);
  }

  lemma WritesCompletion(w: World, w': World, pid: nat, req: Request, c: Completion, record: Record, cas: nat)
    requires Inv(w') && Standing(w, w', pid, req, CompletionWrite(c, record, cas)) && req.documentKey in w.claims.idem
    requires w.claims.idem[req.documentKey].cas == cas
    ensures Answered(w, OneStep(w', pid), pid, req, c.result)
  {
    hide Inv, CompletedRecord;
    CompletionScope(w', pid, req, CompletionWrite(c, record, cas));
  }

  lemma StepInv(w: World, pid: nat)
    requires Inv(w)
    ensures Inv(OneStep(w, pid))
  {
    hide Inv, Act;
    ActKeeps(w, StepCreate(pid, Works, None, 0));
  }

  lemma Submits(w: World, pid: nat, cmd: Command)
    requires Inv(w) && pid !in w.claims.creators && cmd.Fits() && Fresh(Prepare(cmd), w.claims.issued)
    ensures var w' := Act(w, SubmitCreate(pid, cmd)); Inv(w') && Standing(w, w', pid, Prepare(cmd), Claiming)
  {
    hide Inv, Prepare, Fresh;
    ActKeeps(w, SubmitCreate(pid, cmd));
  }

  /** The last four steps of a retry that recovers: two events, and the completion of the record. */
  lemma Finishes(w: World, w': World, pid: nat, req: Request, record: Record, loaded: ReservationState)
    requires Inv(w') && Standing(w, w', pid, req, CheckingEvents(record, loaded, false)) && req.documentKey in w.claims.idem
    requires w.claims.idem[req.documentKey].doc.status.Processing?
    ensures req.documentKey in w.claims.owners && KeyOfReservation(w.claims.owners[req.documentKey]) in w.ledger.created
    ensures var owner := w.claims.owners[req.documentKey];
      Answered(w, OneStep(OneStep(OneStep(OneStep(w', pid), pid), pid), pid), pid, req,
               ResultOf(owner, w.ledger.created[KeyOfReservation(owner)].pending))
  {
    hide Inv, OneStep, Standing, Answered, SnapshotOf, ResultOf;
    Checks(w, w', pid, req, record, loaded, false);
    StepInv(w', pid);
    var w1 := OneStep(w', pid);
    Checks(w, w1, pid, req, record, loaded, true);
    StepInv(w1, pid);
    var w2 := OneStep(w1, pid);
    var owner := w.claims.owners[req.documentKey];
    var pending := w.ledger.created[KeyOfReservation(owner)].pending;
    var c := Completion(record.scope, record.fingerprint, SnapshotOf(owner, pending), true, ResultOf(owner, pending));
    ReadsCompletion(w, w2, pid, req, c);
    StepInv(w2, pid);
    var stored := w.claims.idem[req.documentKey];
    WritesCompletion(w, OneStep(w2, pid), pid, req, c, stored.doc, stored.cas);
  }

  lemma PlayCall(w: World, pid: nat, cmd: Command)
    ensures var w4 := OneStep(OneStep(OneStep(Act(w, SubmitCreate(pid, cmd)), pid), pid), pid);
      Play(w, Call(pid, cmd)) == OneStep(OneStep(OneStep(OneStep(w4, pid), pid), pid), pid)
  {
    hide Act;
    var a := StepCreate(pid, Works, None, 0);
    PlayFour(w, SubmitCreate(pid, cmd), a, a, a);
    var w4 := Play(w, [SubmitCreate(pid, cmd), a, a, a]);
    PlayFour(w4, a, a, a, a);
    PlayTwice(w, [SubmitCreate(pid, cmd), a, a, a], [a, a, a, a]);
  }

  /** The four steps after the claim was read. */
  lemma AfterReading(w: World, w': World, pid: nat, cmd: Command)
    requires Inv(w') && Prepare(cmd).documentKey in w.claims.idem && Prepare(cmd).documentKey in w.claims.owners
    requires Standing(w, w', pid, Prepare(cmd), ReadingClaim)
    ensures var w4 := OneStep(OneStep(w', pid), pid);
      Answered(w, OneStep(OneStep(OneStep(OneStep(w4, pid), pid), pid), pid), pid, Prepare(cmd), RetryAnswer(w, cmd))
  {
    hide Inv, OneStep, Standing, Answered, Prepare, ProcessingRecord, RecordsOk;
    var req, k := Prepare(cmd), Prepare(cmd).documentKey;
    var owner := w.claims.owners[k];
    Reads(w, w', pid, cmd);
    StepInv(w', pid);
    var w3 := OneStep(w', pid);
    StepInv(w3, pid);
    var w4 := OneStep(w3, pid);
    if owner.cmd.Payload() == cmd.Payload() && w.claims.idem[k].doc.status.Processing? {
      Recovers(w, w3, pid, cmd, w.claims.idem[k].doc);
      var key := KeyOfReservation(owner);
      if key in w.ledger.created && |Past(w.ledger.history, key)| <= 1 {
        Finishes(w, w4, pid, req, w.claims.idem[k].doc, w.ledger.reservations[key].doc);
      } else {
        AnsweredThrough(w, w4, pid, req, RetryAnswer(w, cmd));
      }
    } else {
      AnsweredStays(w, w3, pid, req, RetryAnswer(w, cmd));
      AnsweredThrough(w, w4, pid, req, RetryAnswer(w, cmd));
    }
  }

  lemma AnsweredThrough(w: World, w': World, pid: nat, req: Request, result: CreateResult)
    requires Answered(w, w', pid, req, result)
    ensures OneStep(OneStep(OneStep(OneStep(w', pid), pid), pid), pid) == w'
  {
    hide OneStep, Answered;
    AnsweredStays(w, w', pid, req, result);
  }

  /**
   After any run, a call whose scope is already claimed, run alone with working stores, answers
   what `RetryAnswer` says of the state before it, leaves reservations and events as they are, and
   ends.
   */
  lemma SecondCallAnswers(actions: seq<Action>, pid: nat, cmd: Command)
    requires pid !in Run(actions).claims.creators && cmd.Fits() && Fresh(Prepare(cmd), Run(actions).claims.issued)
    requires Prepare(cmd).documentKey in Run(actions).claims.idem
    ensures Prepare(cmd).documentKey in Run(actions).claims.owners
    ensures Answered(Run(actions), Run(actions + Call(pid, cmd)), pid, Prepare(cmd), RetryAnswer(Run(actions), cmd))
  {
    hide Run, Inv, Act, Play, Prepare, Answered, Standing, OneStep, Call, Fresh, RetryAnswer;
    var w := Run(actions);
    RunKeeps(actions);
    OwnedKeys(w);
    RunThenPlay(actions, Call(pid, cmd));
    PlayCall(w, pid, cmd);
    Submits(w, pid, cmd);
    var w1 := Act(w, SubmitCreate(pid, cmd));
    Claims(w, w1, pid, Prepare(cmd));
    StepInv(w1, pid);
    AfterReading(w, OneStep(w1, pid), pid, cmd);
  }

  /**
   A retry with the payload of the claimed record: it is told that it conflicts exactly if the
   record is still processing and its reservation has been edited, and that it is in progress
   exactly if the record is processing and nothing is stored; otherwise it gets the owner's result.
   */
  lemma RetryAnswersExactly(actions: seq<Action>, cmd: Command)
    requires Prepare(cmd).documentKey in Run(actions).claims.idem
    requires var k := Prepare(cmd).documentKey;
      k in Run(actions).claims.owners && Run(actions).claims.owners[k].cmd.Payload() == cmd.Payload()
    ensures var w, k, answer := Run(actions), Prepare(cmd).documentKey, RetryAnswer(Run(actions), cmd);
      var record, owner := w.claims.idem[k].doc, w.claims.owners[k];
      var key := KeyOfReservation(owner);
      && (answer.status.IdempotencyConflict? <==> record.status.Processing? && |Past(w.ledger.history, key)| > 1)
      && (answer.status.IdempotencyInProgress? <==> record.status.Processing? && key !in w.ledger.reservations)
      && (!IsTransient(answer.status) ==> OwnersResult(w, owner, answer))
  {
    hide Run, CreationInv, History.HistoryInv, Books.OutboxInv, PreparedOk, Prepare, SnapshotOf, Created;
    var w, k := Run(actions), Prepare(cmd).documentKey;
    RunParts(actions);
    Steps.LedgerKeys(w.ledger);
    HistoryKeys(w.ledger);
    RecordOfOwner(w, k);
    var owner := w.claims.owners[k];
    if KeyOfReservation(owner) in w.ledger.created {
      Steps.OwnSnapshot(owner, w.ledger.created[KeyOfReservation(owner)].pending);
    }
  }

  lemma RecordOfOwner(w: World, k: string)
    requires CreationInv(w) && k in w.claims.idem
    ensures k in w.claims.owners && RecordOk(w.claims.idem[k].doc, w.claims.owners[k], w.ledger.created)
  {
    hide RecordOk, IssuedOk, CreatedOk, KeysOk, CreatorsOk, ResponsesOk;
  }

  /** The result of the command that claimed the scope: the reservation it created, or its permanent rejection. */
  predicate OwnersResult(w: World, owner: Request, result: CreateResult) {
    var key := KeyOfReservation(owner);
    if key in w.ledger.created then result == ResultOf(owner, w.ledger.created[key].pending)
    else result == RejectedResult(result.status) && IsPermanentRejection(result.status)
  }

  // ----- A retry with the same payload that is told it conflicts -----

  /** Two commands of one scope and one payload, and a decision that approves what the first one creates. */
  predicate Retried(first: Command, second: Command, resource: Resource, approval: EditCommand) {
    && first.Fits() && second.Fits() && first.ScopeOf() == second.ScopeOf() && first.Payload() == second.Payload()
    && !SharesId(Prepare(second), Prepare(first))
    && RejectResource(first, Some(resource)) == None && resource.requiresApproval && !FullyReserved(0, resource)
    && approval.ApproveCommand? && approval.org == first.org && approval.id == first.ids.reservation
  }

  function Creating(first: Command, resource: Resource): seq<Action> {
    [SubmitCreate(0, first), StepCreate(0, Works, None, 0), StepCreate(0, Works, Some(resource), 0),
     StepCreate(0, Works, None, 0), StepCreate(0, Works, None, 0)]
  }

  function Approving(approval: EditCommand): seq<Action> {
    [SubmitEdit(0, approval), StepEdit(0, Works, false), StepEdit(0, Works, false), StepEdit(0, Works, false)]
  }

  function Retrying(second: Command): seq<Action> {
    [SubmitCreate(1, second), StepCreate(1, Works, None, 0), StepCreate(1, Works, None, 0), StepCreate(1, Works, None, 0)]
  }

  /** Persisted but not recorded as done; nothing else has happened. */
  predicate Unrecorded(w: World, req: Request) {
    var k, key := req.documentKey, KeyOfReservation(req);
    && k in w.claims.idem && w.claims.idem[k].doc == ProcessingRecord(req) && w.claims.issued == {req}
    && 1 !in w.claims.creators && key in w.ledger.reservations && w.ledger.editors == map[]
  }

  lemma Creates(first: Command, resource: Resource)
    requires first.Fits() && RejectResource(first, Some(resource)) == None && resource.requiresApproval
    requires !FullyReserved(0, resource)
    ensures var w := Play(Initial, Creating(first, resource)); var key := KeyOfReservation(Prepare(first));
      && Unrecorded(w, Prepare(first)) && w.ledger.reservations[key].doc == Created(first, true)
      && Steps.Runs(w, 0, Prepare(first), ReadingToken(true))
  {
    hide RejectResource, FullyReserved, Created, CreatedEvents, ProcessingRecord, NewEntry, Play;
    var req, a := Prepare(first), Creating(first, resource);
    PlayFive(Initial, a[0], a[1], a[2], a[3], a[4]);
    PreparedCommand(first);
    hide Prepare;
    var w1 := Act(Initial, a[0]);
    assert Steps.Runs(w1, 0, req, Claiming);
    var w2 := Act(w1, a[1]);
    assert Steps.Runs(w2, 0, req, ReadingResource);
    var w3 := Act(w2, a[2]);
    assert Steps.Runs(w3, 0, req, Counting(resource));
    var w4 := Act(w3, a[3]);
    assert Steps.Runs(w4, 0, req, Persisting(true));
    assert Unrecorded(Act(w4, a[4]), req);
  }

  /** Loading and checking, up to the write. */
  lemma ApprovesUntilWrite(w: World, approval: EditCommand, start: ReservationState, t: Transition)
    requires (approval.org, approval.id) in w.ledger.reservations && w.ledger.editors == map[]
    requires w.ledger.reservations[(approval.org, approval.id)].doc == start && (start.org, start.id) == (approval.org, approval.id)
    requires Decide(approval, start) == ApplyUnlessConflict(start.interval, t)
    ensures var a := Approving(approval); var w' := Act(Act(Act(w, a[0]), a[1]), a[2]);
      && w'.claims == w.claims && w'.ledger.reservations == w.ledger.reservations
      && w'.ledger.editors == map[0 := Editor(approval, Writing(start, w.ledger.reservations[(approval.org, approval.id)].cas, t))]
  {
    hide Decide, Next, Enabled;
    var a, cas := Approving(approval), w.ledger.reservations[(approval.org, approval.id)].cas;
    var w1 := Act(w, a[0]);
    assert w1.ledger.editors == map[0 := Editor(approval, Loading)];
    var w2 := Act(w1, a[1]);
    assert w2.ledger.editors == map[0 := Editor(approval, CheckingConflict(start, cas, t))];
  }

  lemma ApprovalDecided(first: Command, approval: EditCommand)
    requires approval.ApproveCommand? && approval.org == first.org && approval.id == first.ids.reservation
    ensures var start, t := Created(first, true), Approve(approval.approver, approval.at, approval.eventId);
      && Decide(approval, start) == ApplyUnlessConflict(start.interval, t)
      && Enabled(start, t) && (start.org, start.id) == (approval.org, approval.id)
  {
  }

  lemma Approves(w: World, first: Command, approval: EditCommand)
    requires KeyOfReservation(Prepare(first)) in w.ledger.reservations && w.ledger.editors == map[]
    requires approval.ApproveCommand? && approval.org == first.org && approval.id == first.ids.reservation
    requires w.ledger.reservations[KeyOfReservation(Prepare(first))].doc == Created(first, true)
    ensures var w', key := Play(w, Approving(approval)), KeyOfReservation(Prepare(first));
      && w'.claims == w.claims && key in w'.ledger.reservations
      && w'.ledger.reservations[key].doc == Next(Created(first, true), Approve(approval.approver, approval.at, approval.eventId))
  {
    var a := Approving(approval);
    var start, t := Created(first, true), Approve(approval.approver, approval.at, approval.eventId);
    PreparedCommand(first);
    ApprovalDecided(first, approval);
    hide Play, Prepare, Decide, Created, Next, Enabled, Approving;
    ApprovesUntilWrite(w, approval, start, t);
    PlayApproving(w, approval);
  }

  lemma PlayApproving(w: World, approval: EditCommand)
    ensures var a := Approving(approval);
      Play(w, a) == Act(Act(Act(Act(w, a[0]), a[1]), a[2]), StepEdit(0, Works, false))
  {
    hide Act;
    var a := Approving(approval);
    PlayFour(w, a[0], a[1], a[2], a[3]);
  }

  lemma ApprovedMismatch(first: Command, second: Command, t: Transition)
    requires t.Approve? && Enabled(Created(first, true), t)
    ensures var loaded := Next(Created(first, true), t);
      && (loaded.org, loaded.id) == (first.org, first.ids.reservation)
      && !MatchesOriginal(loaded, ProcessingRecord(Prepare(first)), second)
  {
  }

  lemma Retries(w: World, first: Command, second: Command, resource: Resource, approval: EditCommand)
    requires Retried(first, second, resource, approval) && w.claims.issued == {Prepare(first)} && 1 !in w.claims.creators
    requires Prepare(first).documentKey in w.claims.idem
    requires w.claims.idem[Prepare(first).documentKey].doc == ProcessingRecord(Prepare(first))
    requires KeyOfReservation(Prepare(first)) in w.ledger.reservations
    requires w.ledger.reservations[KeyOfReservation(Prepare(first))].doc
             == Next(Created(first, true), Approve(approval.approver, approval.at, approval.eventId))
    ensures Response(Prepare(second), Returned(RejectedResult(IdempotencyConflict)))
            in Play(w, Retrying(second)).claims.responses
  {
    hide Play, RejectResource, FullyReserved, SharesId;
    var a, req, owner := Retrying(second), Prepare(second), Prepare(first);
    PlayFour(w, a[0], a[1], a[2], a[3]);
    ApprovedMismatch(first, second, Approve(approval.approver, approval.at, approval.eventId));
    PreparedCommand(first);
    PreparedCommand(second);
    assert req.documentKey == owner.documentKey && req.fingerprint == owner.fingerprint;
    assert ProcessingRecord(owner).fingerprint == owner.fingerprint && ProcessingRecord(owner).status.Processing?;
    assert (ProcessingRecord(owner).scope.org, ProcessingRecord(owner).ids.reservation) == KeyOfReservation(owner);
    hide Prepare, Created, Next, MatchesOriginal, ProcessingRecord;
    var w1 := Act(w, a[0]);
    assert Steps.Runs(w1, 1, req, Claiming);
    var w2 := Act(w1, a[1]);
    assert Steps.Runs(w2, 1, req, ReadingClaim);
    var w3 := Act(w2, a[2]);
    assert Steps.Runs(w3, 1, req, Recovering(ProcessingRecord(owner)));
  }

  /**
   The promise that a retry with the same key and payload has the same result fails in this run:
   the first handler persists its reservation and never records it as done, an approver approves
   it, and the retry is told that its payload conflicts.
   */
  lemma RetryConflictsAfterApproval(first: Command, second: Command, resource: Resource, approval: EditCommand)
    requires Retried(first, second, resource, approval)
    ensures var w := Run(Creating(first, resource) + Approving(approval) + Retrying(second));
      && Response(Prepare(second), Returned(RejectedResult(IdempotencyConflict))) in w.claims.responses
      && second.Payload() == first.Payload() && second.ScopeOf() == first.ScopeOf()
  {
    hide Act, Play, Prepare, Created, Next;
    var creating, approving := Creating(first, resource), Approving(approval);
    assert Creating(first, resource) == [] + creating;
    RunThenPlay([], creating);
    RunThenPlay(creating, approving);
    RunThenPlay(creating + approving, Retrying(second));
    Creates(first, resource);
    PreparedCommand(first);
    Approves(Run(creating), first, approval);
    Retries(Run(creating + approving), first, second, resource, approval);
  }

  // ----- A conflict after the record is completed -----

  function Waiting(second: Command): seq<Action> {
    var step := StepCreate(1, Works, None, 0);
    [SubmitCreate(1, second), step, step] + [StepCreate(0, Works, None, 0)]
  }

  function Recording(): seq<Action> { [StepCreate(0, Works, None, 0), StepCreate(0, Works, None, 0)] }

  /** The retry stands before its read of the reservation, with the record it found processing. */
  predicate Awaits(w: World, owner: Request, req: Request) {
    && Steps.Runs(w, 1, req, Recovering(ProcessingRecord(owner))) && owner.documentKey in w.claims.idem
    && KeyOfReservation(owner) in w.ledger.reservations
  }

  lemma Waits(w: World, first: Command, second: Command, resource: Resource, approval: EditCommand)
    requires Retried(first, second, resource, approval) && Unrecorded(w, Prepare(first))
    requires Steps.Runs(w, 0, Prepare(first), ReadingToken(true))
    ensures var w', owner := Play(w, Waiting(second)), Prepare(first);
      && Awaits(w', owner, Prepare(second)) && w'.ledger == w.ledger && w'.claims.idem == w.claims.idem
      && Steps.Runs(w', 0, owner, CompletionRead(OwnCompletion(owner)))
  {
    hide Play, RejectResource, FullyReserved, SharesId;
    var step, req, owner := StepCreate(1, Works, None, 0), Prepare(second), Prepare(first);
    PlayFour(w, SubmitCreate(1, second), step, step, StepCreate(0, Works, None, 0));
    assert Waiting(second) == [SubmitCreate(1, second), step, step, StepCreate(0, Works, None, 0)];
    PreparedCommand(first);
    PreparedCommand(second);
    assert req.documentKey == owner.documentKey && req.fingerprint == owner.fingerprint;
    assert ProcessingRecord(owner).fingerprint == owner.fingerprint && ProcessingRecord(owner).status.Processing?;
    hide Prepare, ProcessingRecord;
    var w1 := Act(w, SubmitCreate(1, second));
    assert Steps.Runs(w1, 1, req, Claiming);
    var w2 := Act(w1, step);
    assert Steps.Runs(w2, 1, req, ReadingClaim);
    var w3 := Act(w2, step);
    assert Steps.Runs(w3, 1, req, Recovering(ProcessingRecord(owner))) && Steps.Runs(w3, 0, owner, ReadingToken(true));
    Steps.OwnSnapshot(owner, true);
    hide SnapshotFor, SnapshotOf, Created, SuccessResult;
    assert ResultOf(owner, true) == SuccessResult(Created(owner.cmd, true), owner.cmd.at);
  }

  function OwnCompletion(owner: Request): Completion {
    Completion(owner.cmd.ScopeOf(), owner.fingerprint, SnapshotOf(owner, true), true, ResultOf(owner, true))
  }

  lemma OwnCompletionValidates(owner: Request)
    ensures var c := OwnCompletion(owner);
      ValidateCompletion(ProcessingRecord(owner), c.fingerprint, c.snapshot, true) == None
      && ProcessingRecord(owner).scope == c.scope && ProcessingRecord(owner).status.Processing?
  {
  }

  lemma Records(w: World, owner: Request, req: Request)
    requires Awaits(w, owner, req) && Steps.Runs(w, 0, owner, CompletionRead(OwnCompletion(owner)))
    requires w.claims.idem[owner.documentKey].doc == ProcessingRecord(owner)
    ensures var w' := Play(w, Recording());
      Awaits(w', owner, req) && w'.ledger == w.ledger && w'.claims.idem[owner.documentKey].doc.status.Succeeded?
  {
    OwnCompletionValidates(owner);
    hide ValidateCompletion, SnapshotOf, ResultOf, ProcessingRecord;
    var a, c := Recording(), OwnCompletion(owner);
    var w1 := Act(w, a[0]);
    assert Steps.Runs(w1, 0, owner, CompletionWrite(c, ProcessingRecord(owner), w.claims.idem[owner.documentKey].cas));
    var w2 := Act(w1, a[1]);
    assert a[1..] == [a[1]] && a[1..][1..] == [];
    assert Play(w1, a[1..]) == Play(w2, []);
    assert Play(w, a) == Play(w1, a[1..]);
  }

  lemma RecoversLate(w: World, first: Command, second: Command, t: Transition)
    requires Awaits(w, Prepare(first), Prepare(second)) && t.Approve? && Enabled(Created(first, true), t)
    requires w.ledger.reservations[KeyOfReservation(Prepare(first))].doc == Next(Created(first, true), t)
    ensures var w' := OneStep(w, 1);
      && Response(Prepare(second), Returned(RejectedResult(IdempotencyConflict))) in w'.claims.responses
      && w'.claims.idem == w.claims.idem
  {
    ApprovedMismatch(first, second, t);
    PreparedCommand(first);
    PreparedCommand(second);
    assert (ProcessingRecord(Prepare(first)).scope.org, ProcessingRecord(Prepare(first)).ids.reservation)
           == KeyOfReservation(Prepare(first));
    hide Prepare, Created, Next, MatchesOriginal, ProcessingRecord;
  }

  lemma Pending(first: Command)
    ensures Created(first, true).status.PendingApproval?
  {
  }

  /**
   A run in which the conflict is answered after the record is completed: the retry reads the
   record while it is processing, the first handler completes it, an approver approves the
   reservation, and only then the retry reads the reservation.
   */
  lemma RetryConflictsAfterCompletion(first: Command, second: Command, resource: Resource, approval: EditCommand)
    requires Retried(first, second, resource, approval)
    ensures var w := Run(Creating(first, resource) + Waiting(second) + Recording() + Approving(approval)
                         + [StepCreate(1, Works, None, 0)]);
      && Response(Prepare(second), Returned(RejectedResult(IdempotencyConflict))) in w.claims.responses
      && Prepare(first).documentKey in w.claims.idem
      && w.claims.idem[Prepare(first).documentKey].doc.status.Succeeded?
  {
    hide Act, Play, Prepare, Created, Next, OwnCompletion, ProcessingRecord, RejectResource, FullyReserved, SharesId;
    var a, b, c, d := Creating(first, resource), Waiting(second), Recording(), Approving(approval);
    var last := StepCreate(1, Works, None, 0);
    assert [] + a == a;
    RunThenPlay([], a);
    RunThenPlay(a, b);
    RunThenPlay(a + b, c);
    RunThenPlay(a + b + c, d);
    RunThenPlay(a + b + c + d, [last]);
    PreparedCommand(first);
    Creates(first, resource);
    Waits(Run(a), first, second, resource, approval);
    Records(Run(a + b), Prepare(first), Prepare(second));
    Approves(Run(a + b + c), first, approval);
    Pending(first);
    RecoversLate(Run(a + b + c + d), first, second, Approve(approval.approver, approval.at, approval.eventId));
    PlayLast(Run(a + b + c + d), last);
  }

  lemma PlayLast(w: World, a: Action)
    ensures Play(w, [a]) == Act(w, a)
  {
    hide Act;
    assert [a][1..] == [];
    assert Play(Act(w, a), []) == Act(w, a);
  }
}
