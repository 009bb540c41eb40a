/**
 The first call of a scope, run alone: the handler of the state machine does what the serialized
 schedule decides.
 */
module FirstCalls {
  import opened Wrappers
  import opened Timestamp
  import opened Domain
  import opened Idempotency
  import opened Handlers
  import opened Schedule
  import opened World
  import opened Runs
  import opened StepShapes
  import opened CreationInvariant
  import opened SystemInvariant
  import opened SystemTheorems
  import opened ConcurrentCapacity
  import opened Decisions
  import opened Retries
  import Steps = CreationSteps
  import History = ReservationHistory
  import Books = OutboxInvariant

  /** A call with working stores that reads `resource` and counts `count`. */
  function FirstCall(pid: nat, cmd: Command, resource: Option<Resource>, count: int): seq<Action> {
    var step := StepCreate(pid, Works, resource, count);
    [SubmitCreate(pid, cmd), step, step, step] + [step, step, step, step]
  }

  function Goes(w: World, pid: nat, resource: Option<Resource>, count: int): World {
    Act(w, StepCreate(pid, Works, resource, count))
  }

  /** The handler stands at `pc` with its record processing; reservations, events and answers are as in `w`. */
  predicate On(w: World, w': World, pid: nat, req: Request, pc: CreatePc) {
    && Steps.Runs(w', pid, req, pc) && w'.ledger == w.ledger && w'.outbox == w.outbox
    && w'.claims.responses == w.claims.responses
    && req.documentKey in w'.claims.idem && w'.claims.idem[req.documentKey].doc.status.Processing?
  }

  /** The handler has answered `result` and ended. */
  predicate Done(w: World, w': World, pid: nat, req: Request, result: CreateResult, ledger: Ledger, outbox: Outbox) {
    && pid !in w'.claims.creators && w'.ledger == ledger && w'.outbox == outbox
    && w'.claims.responses == w.claims.responses + {Response(req, Returned(result))}
  }

  lemma GoesInv(w: World, pid: nat, resource: Option<Resource>, count: int)
    requires Inv(w)
    ensures Inv(Goes(w, pid, resource, count))
  {
    hide Inv, Act;
    ActKeeps(w, StepCreate(pid, Works, resource, count));
  }

  lemma ClaimsFirst(w: World, w': World, pid: nat, req: Request, resource: Option<Resource>, count: int)
    requires Standing(w, w', pid, req, Claiming) && req.documentKey !in w.claims.idem
    ensures On(w, Goes(w', pid, resource, count), pid, req, ReadingResource)
  {
  }

  lemma ReadsResource(w: World, w': World, pid: nat, req: Request, resource: Option<Resource>, count: int)
    requires On(w, w', pid, req, ReadingResource)
    ensures var w'' := Goes(w', pid, resource, count);
      if Eligible(req.cmd, resource) then resource.Some? && On(w, w'', pid, req, Counting(resource.value))
      else exists status: CreateStatus, c: Completion :: Applies(req.cmd, resource, status) && c.result == CreateResult(status, None, None)
                               && On(w, w'', pid, req, CompletionRead(c))
  {
    hide CreatorStep, Accepts, Applies;
    ReadResourceExact(w', pid, req, resource, count);
    var w'' := Goes(w', pid, resource, count);
    if !Eligible(req.cmd, resource) {
      var status :| Applies(req.cmd, resource, status) && Rejects(w', w'', pid, req, status);
      var c := w''.claims.creators[pid].pc.completion;
      assert c.result == CreateResult(status, None, None) && On(w, w'', pid, req, CompletionRead(c));
    }
  }

  lemma CountsUnits(w: World, w': World, pid: nat, req: Request, r: Resource, resource: Option<Resource>, count: int)
    requires On(w, w', pid, req, Counting(r))
    ensures var w'' := Goes(w', pid, resource, count);
      if count >= ToInt32(r.totalUnits)
      then exists c: Completion :: c.result == CreateResult(ScheduleConflict, None, None) && On(w, w'', pid, req, CompletionRead(c))
      else On(w, w'', pid, req, Persisting(r.requiresApproval))
  {
    hide CreatorStep, ToInt32;
    CountExact(w', pid, req, r, resource, count);
    var w'' := Goes(w', pid, resource, count);
    if count >= ToInt32(r.totalUnits) {
      var c := w''.claims.creators[pid].pc.completion;
      assert c.result == CreateResult(ScheduleConflict, None, None) && On(w, w'', pid, req, CompletionRead(c));
    }
  }

  /** The handler has persisted its reservation. */
  predicate Persisted(w: World, w': World, pid: nat, req: Request, pending: bool, pc: CreatePc) {
    && Steps.Runs(w', pid, req, pc) && w'.ledger == InsertReservation(w.ledger, Creation(req, pending))
    && w'.outbox == InsertEvents(w.outbox, Creation(req, pending))
    && w'.claims.responses == w.claims.responses
    && req.documentKey in w'.claims.idem && w'.claims.idem[req.documentKey].doc.status.Processing?
  }

  lemma PersistsIt(w: World, w': World, pid: nat, req: Request, pending: bool, resource: Option<Resource>, count: int)
    requires Inv(w') && On(w, w', pid, req, Persisting(pending))
    ensures Persisted(w, Goes(w', pid, resource, count), pid, req, pending, ReadingToken(pending))
    ensures KeyOfReservation(req) !in w.ledger.reservations
  {
    hide Inv, CreationInv, History.HistoryInv, Books.OutboxInv, PreparedOk, SharedOk, KeysOk, Created, KeysOfEvents,
         InsertEvents;
    Parts(w');
    Steps.Now(w', pid, req, Persisting(pending));
    Steps.LedgerKeys(w'.ledger);
    Steps.NothingStored(w', req, pending);
  }

  lemma ReadsToken(w: World, w': World, pid: nat, req: Request, pending: bool, resource: Option<Resource>, count: int)
    requires Persisted(w, w', pid, req, pending, ReadingToken(pending))
    ensures exists c: Completion ::
      && c.result == CreateResult(if pending then CreatedPendingApproval else CreatedConfirmed,
                                  Some(Created(req.cmd, pending)), Some(req.cmd.at))
      && Persisted(w, Goes(w', pid, resource, count), pid, req, pending, CompletionRead(c))
  {
    var w'' := Goes(w', pid, resource, count);
    var c := w''.claims.creators[pid].pc.completion;
    assert Persisted(w, w'', pid, req, pending, CompletionRead(c));
  }

  /** The two steps that complete the record, and the answer. */
  lemma Completes(w': World, pid: nat, req: Request, c: Completion, resource: Option<Resource>, count: int)
    requires Inv(w') && Steps.Runs(w', pid, req, CompletionRead(c))
    requires req.documentKey in w'.claims.idem && w'.claims.idem[req.documentKey].doc.status.Processing?
    ensures var w'' := Goes(Goes(w', pid, resource, count), pid, resource, count);
      Done(w', w'', pid, req, c.result, w'.ledger, w'.outbox)
  {
    hide Inv, OneStep, Goes, Standing;
    StandsNow(w', pid, req, CompletionRead(c));
    ReadsCompletion(w', w', pid, req, c);
    Indifferent(w', pid, req, CompletionRead(c), resource, count);
    var v := OneStep(w', pid);
    StepInv(w', pid);
    var stored := w'.claims.idem[req.documentKey];
    WritesCompletion(w', v, pid, req, c, stored.doc, stored.cas);
    StandsAt(w', v, pid, req, CompletionWrite(c, stored.doc, stored.cas));
    Indifferent(v, pid, req, CompletionWrite(c, stored.doc, stored.cas), resource, count);
  }

  lemma StandsNow(w: World, pid: nat, req: Request, pc: CreatePc)
    requires Steps.Runs(w, pid, req, pc)
    ensures Standing(w, w, pid, req, pc)
  {
  }

  lemma StandsAt(w: World, w': World, pid: nat, req: Request, pc: CreatePc)
    requires Standing(w, w', pid, req, pc)
    ensures Steps.Runs(w', pid, req, pc)
  {
  }

  /** Completing reads neither the resource nor the count. */
  lemma Indifferent(w: World, pid: nat, req: Request, pc: CreatePc, resource: Option<Resource>, count: int)
    requires Steps.Runs(w, pid, req, pc) && (pc.CompletionRead? || pc.CompletionWrite?)
    ensures Goes(w, pid, resource, count) == OneStep(w, pid)
  {
    hide StepCompletionRead, StepCompletionWrite;
  }

  lemma PlayFirst(w: World, pid: nat, cmd: Command, resource: Option<Resource>, count: int)
    ensures var w4 := Goes(Goes(Goes(Act(w, SubmitCreate(pid, cmd)), pid, resource, count), pid, resource, count), pid, resource,
                           count);
      Play(w, FirstCall(pid, cmd, resource, count))
      == Goes(Goes(Goes(Goes(w4, pid, resource, count), pid, resource, count), pid, resource, count), pid, resource, count)
  {
    hide Act;
    var a := StepCreate(pid, Works, resource, count);
    PlayFour(w, SubmitCreate(pid, cmd), a, a, a);
    var w4 := Play(w, [SubmitCreate(pid, cmd), a, a, a]);
    PlayFour(w4, a, a, a, a);
    PlayTwice(w, [SubmitCreate(pid, cmd), a, a, a], [a, a, a, a]);
  }

  lemma DoneStays(w: World, w': World, pid: nat, req: Request, result: CreateResult, ledger: Ledger, outbox: Outbox,
                  resource: Option<Resource>, count: int)
    requires Done(w, w', pid, req, result, ledger, outbox)
    ensures Goes(w', pid, resource, count) == w'
  {
    NobodyActs(w', StepCreate(pid, Works, resource, count));
  }

  lemma Declines(w: World, w': World, pid: nat, req: Request, c: Completion, resource: Option<Resource>, count: int)
    requires Inv(w') && On(w, w', pid, req, CompletionRead(c))
    ensures var w'' := Goes(Goes(w', pid, resource, count), pid, resource, count);
      Done(w, w'', pid, req, c.result, w.ledger, w.outbox)
  {
    hide Inv, Goes;
    Completes(w', pid, req, c, resource, count);
  }

  /** What the handler answers when the schedule decides `d` for it. */
  predicate Answers(d: CreateDecision, c: Command, result: CreateResult) {
    match d
    case Decline(status) => result == CreateResult(status, None, None)
    case Insert(r) =>
      result == CreateResult(if r.status == Confirmed then CreatedConfirmed else CreatedPendingApproval, Some(r), Some(c.at))
  }

  /** The call has ended with the answer and the effect that the schedule decides on. */
  predicate Settles(w: World, w': World, pid: nat, cmd: Command, resource: Option<Resource>, result: CreateResult) {
    var d := DecideCreation(BookOf(w.ledger), cmd, resource);
    && pid !in w'.claims.creators && Answers(d, cmd, result)
    && w'.claims.responses == w.claims.responses + {Response(Prepare(cmd), Returned(result))}
    && BookOf(w'.ledger) == AfterCreation(BookOf(w.ledger), cmd, resource)
    && w'.outbox == match d
                    case Decline(_) => w.outbox
                    case Insert(r) => InsertEvents(w.outbox, Creation(Prepare(cmd), r.status == PendingApproval))
  }

  lemma DeclineSettles(w: World, w': World, pid: nat, cmd: Command, resource: Option<Resource>, status: CreateStatus)
    requires !Eligible(cmd, resource) && Applies(cmd, resource, status)
    requires Done(w, w', pid, Prepare(cmd), CreateResult(status, None, None), w.ledger, w.outbox)
    ensures Settles(w, w', pid, cmd, resource, CreateResult(status, None, None))
  {
    CreationExact(BookOf(w.ledger), cmd, resource);
    hide DecideCreation, Prepare, BookOf, ConflictingKeys, Accepts, ToInt32, Ordered;
  }

  lemma ConflictSettles(w: World, w': World, pid: nat, cmd: Command, resource: Option<Resource>, count: int)
    requires Eligible(cmd, resource) && count == ReservedUnits(BookOf(w.ledger), cmd.org, cmd.resource, cmd.interval)
    requires count >= ToInt32(resource.value.totalUnits)
    requires Done(w, w', pid, Prepare(cmd), CreateResult(ScheduleConflict, None, None), w.ledger, w.outbox)
    ensures Settles(w, w', pid, cmd, resource, CreateResult(ScheduleConflict, None, None))
  {
    CreationExact(BookOf(w.ledger), cmd, resource);
    hide DecideCreation, Prepare, BookOf, ConflictingKeys, Accepts, ToInt32, Ordered;
  }

  lemma PlacementSettles(w: World, w': World, pid: nat, cmd: Command, resource: Option<Resource>, count: int,
                         result: CreateResult)
    requires Eligible(cmd, resource) && count == ReservedUnits(BookOf(w.ledger), cmd.org, cmd.resource, cmd.interval)
    requires count < ToInt32(resource.value.totalUnits) && KeyOfReservation(Prepare(cmd)) !in w.ledger.reservations
    requires var creation := Creation(Prepare(cmd), resource.value.requiresApproval);
      Done(w, w', pid, Prepare(cmd), result, InsertReservation(w.ledger, creation), InsertEvents(w.outbox, creation))
    requires var pending := resource.value.requiresApproval;
      result == CreateResult(if pending then CreatedPendingApproval else CreatedConfirmed, Some(Created(cmd, pending)),
                             Some(cmd.at))
    ensures Settles(w, w', pid, cmd, resource, result)
  {
    PreparedCommand(cmd);
    var creation := Creation(Prepare(cmd), resource.value.requiresApproval);
    BookInserted(w.ledger, creation);
    RejectionExact(cmd, resource);
    PlacementKey(w.ledger, cmd, resource.value.requiresApproval);
    hide RejectResource, Prepare, BookOf, ReservedUnits, Accepts, ToInt32, InsertReservation, InsertEvents, Created;
  }

  lemma PlacementKey(l: Ledger, cmd: Command, pending: bool)
    ensures KeyOf(Created(cmd, pending)) == KeyOfReservation(Prepare(cmd))
    ensures Created(cmd, pending).status == if pending then PendingApproval else Confirmed
    ensures KeyOf(Created(cmd, pending)) in BookOf(l) <==> KeyOf(Created(cmd, pending)) in l.reservations
  {
    hide Encoding.ScopeEncoding, Encoding.RequestEncoding;
  }

  /** The last four steps: persisting, reading the token, and completing the record. */
  lemma Places(w: World, w4: World, pid: nat, cmd: Command, resource: Option<Resource>, count: int)
    requires Inv(w4) && Eligible(cmd, resource) && resource.Some?
    requires On(w, w4, pid, Prepare(cmd), Persisting(resource.value.requiresApproval))
    requires count == ReservedUnits(BookOf(w.ledger), cmd.org, cmd.resource, cmd.interval)
    requires count < ToInt32(resource.value.totalUnits)
    ensures var w6 := Goes(Goes(w4, pid, resource, count), pid, resource, count);
      exists result :: Settles(w, Goes(Goes(w6, pid, resource, count), pid, resource, count), pid, cmd, resource, result)
  {
    hide Inv, Goes, On, Done, Eligible, ReservedUnits, BookOf, Settles, Prepare, Created, InsertReservation, InsertEvents;
    PreparedCommand(cmd);
    var req, pending := Prepare(cmd), resource.value.requiresApproval;
    PersistsIt(w, w4, pid, req, pending, resource, count);
    var w5 := Goes(w4, pid, resource, count);
    GoesInv(w4, pid, resource, count);
    ReadsToken(w, w5, pid, req, pending, resource, count);
    var w6 := Goes(w5, pid, resource, count);
    GoesInv(w5, pid, resource, count);
    var c: Completion :|
      && c.result == CreateResult(if pending then CreatedPendingApproval else CreatedConfirmed,
                                  Some(Created(req.cmd, pending)), Some(req.cmd.at))
      && Persisted(w, w6, pid, req, pending, CompletionRead(c));
    Completes(w6, pid, req, c, resource, count);
    var w8 := Goes(Goes(w6, pid, resource, count), pid, resource, count);
    DoneSince(w, w6, w8, pid, req, c.result, w6.ledger, w6.outbox);
    PlacementSettles(w, w8, pid, cmd, resource, count, c.result);
  }

  lemma DoneSince(w: World, w': World, w'': World, pid: nat, req: Request, result: CreateResult, ledger: Ledger, outbox: Outbox)
    requires Done(w', w'', pid, req, result, ledger, outbox) && w'.claims.responses == w.claims.responses
    ensures Done(w, w'', pid, req, result, ledger, outbox)
  {
  }

  /** From reading the resource to the end. */
  lemma Decides(w: World, w2: World, pid: nat, cmd: Command, resource: Option<Resource>, count: int)
    requires Inv(w2) && On(w, w2, pid, Prepare(cmd), ReadingResource)
    requires count == ReservedUnits(BookOf(w.ledger), cmd.org, cmd.resource, cmd.interval)
    ensures var w5 := Goes(Goes(Goes(w2, pid, resource, count), pid, resource, count), pid, resource, count);
      var w8 := Goes(Goes(Goes(w5, pid, resource, count), pid, resource, count), pid, resource, count);
      exists result :: Settles(w, w8, pid, cmd, resource, result)
  {
    hide Inv, Goes, On, Done, Persisted, Applies, Accepts, DecideCreation, Answers, Prepare, ReservedUnits, BookOf, Eligible,
         Settles;
    var req := Prepare(cmd);
    PreparedCommand(cmd);
    ReadsResource(w, w2, pid, req, resource, count);
    var w3 := Goes(w2, pid, resource, count);
    GoesInv(w2, pid, resource, count);
    var w4 := Goes(w3, pid, resource, count);
    GoesInv(w3, pid, resource, count);
    var w5 := Goes(w4, pid, resource, count);
    GoesInv(w4, pid, resource, count);
    if !Eligible(cmd, resource) {
      var status: CreateStatus, c: Completion :| Applies(cmd, resource, status)
        && c.result == CreateResult(status, None, None) && On(w, w3, pid, req, CompletionRead(c));
      Declines(w, w3, pid, req, c, resource, count);
      DoneStays(w, w5, pid, req, c.result, w.ledger, w.outbox, resource, count);
      DeclineSettles(w, w5, pid, cmd, resource, status);
    } else {
      CountsUnits(w, w3, pid, req, resource.value, resource, count);
      if count >= ToInt32(resource.value.totalUnits) {
        var c: Completion :| c.result == CreateResult(ScheduleConflict, None, None) && On(w, w4, pid, req, CompletionRead(c));
        Declines(w, w4, pid, req, c, resource, count);
        var w6 := Goes(w5, pid, resource, count);
        DoneStays(w, w6, pid, req, c.result, w.ledger, w.outbox, resource, count);
        ConflictSettles(w, w6, pid, cmd, resource, count);
      } else {
        Places(w, w4, pid, cmd, resource, count);
      }
    }
  }

  /**
   After any run, the first call of a scope, run alone with working stores and a true count, ends
   with the answer the schedule decides on for the resource it reads, and with its effect: the
   rejection and nothing stored, or the reservation of the command with its two events.
   */
  lemma FirstCallAnswers(actions: seq<Action>, pid: nat, cmd: Command, resource: Option<Resource>)
    requires pid !in Run(actions).claims.creators && cmd.Fits() && Fresh(Prepare(cmd), Run(actions).claims.issued)
    requires Prepare(cmd).documentKey !in Run(actions).claims.idem
    ensures var w := Run(actions);
      var count := ReservedUnits(BookOf(w.ledger), cmd.org, cmd.resource, cmd.interval);
      exists result :: Settles(w, Run(actions + FirstCall(pid, cmd, resource, count)), pid, cmd, resource, result)
  {
    hide Run, Inv, Act, Play, Prepare, On, Standing, Goes, FirstCall, Fresh, Settles, ReservedUnits, BookOf;
    var w := Run(actions);
    var count := ReservedUnits(BookOf(w.ledger), cmd.org, cmd.resource, cmd.interval);
    RunKeeps(actions);
    RunThenPlay(actions, FirstCall(pid, cmd, resource, count));
    PlayFirst(w, pid, cmd, resource, count);
    Submits(w, pid, cmd);
    var w1 := Act(w, SubmitCreate(pid, cmd));
    ClaimsFirst(w, w1, pid, Prepare(cmd), resource, count);
    GoesInv(w1, pid, resource, count);
    Decides(w, Goes(w1, pid, resource, count), pid, cmd, resource, count);
  }
}
