/** When a call is told that its idempotency key conflicts: the exact step and the steps before it. */
module Conflicts {
  import opened Wrappers
  import opened Timestamp
  import opened Domain
  import opened Idempotency
  import opened Handlers
  import opened World
  import opened StepShapes
  import opened CreationInvariant
  import opened SystemInvariant
  import opened SystemTheorems
  import Steps = CreationSteps
  import History = ReservationHistory
  import Books = OutboxInvariant

  predicate IsConflict(outcome: Outcome) {
    outcome.Returned? && outcome.result.status.IdempotencyConflict?
  }

  const CONFLICT := Returned(RejectedResult(IdempotencyConflict))

  /**
   A step that answers a conflict: the claim finds a record of another payload, or recovery finds
   the reservation of the record's owner edited.
   */
  predicate ConflictStep(w: World, pid: nat, io: Io, req: Request) {
    var k := req.documentKey;
    && io.Works? && pid in w.claims.creators && w.claims.creators[pid].req == req && k in w.claims.owners
    && match w.claims.creators[pid].pc
       case ReadingClaim => w.claims.owners[k].cmd.Payload() != req.cmd.Payload()
       case Recovering(_) => |Past(w.ledger.history, KeyOfReservation(w.claims.owners[k]))| > 1
       case _ => false
  }

  /** The answers a step adds: a conflict exactly at a conflict step, always to the stepping handler. */
  ghost predicate AnswersExactly(w: World, w': World, pid: nat, io: Io, req: Request) {
    && w.claims.responses <= w'.claims.responses
    && (forall r :: r in w'.claims.responses && r !in w.claims.responses ==>
          r.req == req && (IsConflict(r.outcome) ==> r.outcome == CONFLICT && ConflictStep(w, pid, io, req)))
    && (ConflictStep(w, pid, io, req) ==> Response(req, CONFLICT) in w'.claims.responses)
  }

  lemma FinishExactly(w: World, w': World, pid: nat, io: Io, req: Request, outcome: Outcome)
    requires w'.claims.responses == w.claims.responses
    requires IsConflict(outcome) <==> ConflictStep(w, pid, io, req)
    requires IsConflict(outcome) ==> outcome == CONFLICT
    ensures AnswersExactly(w, FinishCreator(w', pid, req, outcome), pid, io, req)
  {
    hide ConflictStep, IsConflict;
  }

  lemma MoveExactly(w: World, w': World, pid: nat, io: Io, req: Request, pc: CreatePc)
    requires w'.claims.responses == w.claims.responses && !ConflictStep(w, pid, io, req)
    ensures AnswersExactly(w, MoveCreator(w', pid, req, pc), pid, io, req)
  {
    hide ConflictStep, IsConflict;
  }

  lemma TerminalIsNoConflict(record: Record, owner: Request, created: map<ReservationKey, Creation>)
    requires RecordOk(record, owner, created) && !record.status.Processing?
    ensures record.result.Some? && !IsConflict(Returned(Replay(record.result.value)))
  {
  }

  lemma ReadClaimExactly(w: World, pid: nat, req: Request, io: Io)
    requires CreationInv(w) && Steps.Runs(w, pid, req, ReadingClaim)
    ensures AnswersExactly(w, StepReadClaim(w, pid, req, io), pid, io, req)
  {
    hide CreationInv, SharedOk, KeysOk, AnswersExactly, FinishCreator, MoveCreator, SnapshotOf, Replay, Agree;
    Steps.Now(w, pid, req, ReadingClaim);
    var key := req.documentKey;
    RecordKeys(w);
    if !io.Works? || key !in w.claims.idem {
      FinishExactly(w, w, pid, io, req, Threw(StoreFailure));
    } else {
      Steps.ReadRecord(SharedOf(w), w.claims.issued, req);
      AgreeMeans(req, w.claims.owners[key]);
      var record := w.claims.idem[key].doc;
      match Classify(record, req.fingerprint)
      case FingerprintMismatch => FinishExactly(w, w, pid, io, req, CONFLICT);
      case ExistingProcessing => MoveExactly(w, w, pid, io, req, Recovering(record));
      case ExistingTerminal =>
        TerminalIsNoConflict(record, w.claims.owners[key], w.ledger.created);
        FinishExactly(w, w, pid, io, req, Returned(Replay(record.result.value)));
    }
  }

  lemma RecordKeys(w: World)
    requires CreationInv(w)
    ensures w.claims.idem.Keys == w.claims.owners.Keys
  {
    hide RecordOk, IssuedOk, CreatedOk, KeysOk, CreatorsOk, ResponsesOk;
  }

  lemma RecoverExactly(w: World, pid: nat, req: Request, record: Record, io: Io)
    requires Inv(w) && Steps.Runs(w, pid, req, Recovering(record))
    ensures AnswersExactly(w, StepRecover(w, pid, req, record, io), pid, io, req)
  {
    hide Inv, CreationInv, History.HistoryInv, Books.OutboxInv, SharedOk, KeysOk, AnswersExactly, FinishCreator, MoveCreator,
         StepRecover, ProcessingRecord;
    Parts(w);
    Steps.Now(w, pid, req, Recovering(record));
    Steps.OwnerOf(SharedOf(w), w.claims.issued, req, record);
    HistoryKeys(w.ledger);
    if io.Works? {
      RecoverStep(w, pid, req, record);
      var key := KeyOfReservation(w.claims.owners[req.documentKey]);
      if key !in w.ledger.reservations {
        FinishExactly(w, w, pid, io, req, Returned(RejectedResult(IdempotencyInProgress)));
      } else if |Past(w.ledger.history, key)| > 1 {
        FinishExactly(w, w, pid, io, req, CONFLICT);
      } else {
        MoveExactly(w, w, pid, io, req, CheckingEvents(record, w.ledger.reservations[key].doc, false));
      }
    } else {
      RecoverFails(w, pid, req, record, io);
      FinishExactly(w, w, pid, io, req, Threw(StoreFailure));
    }
  }

  lemma RecoverFails(w: World, pid: nat, req: Request, record: Record, io: Io)
    requires !io.Works?
    ensures StepRecover(w, pid, req, record, io) == FinishCreator(w, pid, req, Threw(StoreFailure))
  {
  }

  /** The step answers nothing, or something other than a conflict. */
  ghost predicate PlainAnswers(w: World, w': World, req: Request) {
    && w.claims.responses <= w'.claims.responses
    && (forall r :: r in w'.claims.responses && r !in w.claims.responses ==> r.req == req && !IsConflict(r.outcome))
  }

  lemma PlainExactly(w: World, w': World, pid: nat, io: Io)
    requires pid in w.claims.creators && PlainAnswers(w, w', w.claims.creators[pid].req)
    requires !w.claims.creators[pid].pc.ReadingClaim? && !w.claims.creators[pid].pc.Recovering?
    ensures AnswersExactly(w, w', pid, io, w.claims.creators[pid].req)
  {
    hide IsConflict;
  }

  lemma CompletionIsNoConflict(c: Completion, req: Request, s: Shared)
    requires CompletionOk(c, req, s) || ReconcileOk(c, req, s)
    ensures !IsConflict(Returned(c.result))
  {
  }

  /** The steps that complete a record answer with the outcome they complete it with. */
  lemma CompletingPlain(w: World, pid: nat, io: Io, resource: Option<Resource>, count: int)
    requires CreationInv(w) && pid in w.claims.creators
    requires var pc := w.claims.creators[pid].pc; pc.CompletionRead? || pc.CompletionWrite? || pc.CompletionReconcile?
    ensures PlainAnswers(w, CreatorStep(w, pid, io, resource, count), w.claims.creators[pid].req)
  {
    hide CreatorStep, CreationInv, SharedOk, KeysOk, CompletionOk, ReconcileOk, RejectedResult, IsConflict;
    var req, pc := w.claims.creators[pid].req, w.claims.creators[pid].pc;
    StepFramed(w, pid, io, resource, count);
    Steps.Now(w, pid, req, pc);
    CompletionIsNoConflict(pc.completion, req, SharedOf(w));
    PlainResult(pc.completion.result);
  }

  lemma PlainResult(result: CreateResult)
    requires !IsConflict(Returned(result))
    ensures forall outcome: Outcome :: (outcome.Returned? ==> outcome.result == result) ==> !IsConflict(outcome)
  {
  }

  lemma OtherStepsPlain(w: World, pid: nat, io: Io, resource: Option<Resource>, count: int)
    requires pid in w.claims.creators
    requires var pc := w.claims.creators[pid].pc;
      !pc.ReadingClaim? && !pc.Recovering? && !pc.CompletionRead? && !pc.CompletionWrite? && !pc.CompletionReconcile?
    ensures PlainAnswers(w, CreatorStep(w, pid, io, resource, count), w.claims.creators[pid].req)
  {
    hide CreatorStep;
    StepFramed(w, pid, io, resource, count);
  }

  lemma CreatorExactly(w: World, pid: nat, io: Io, resource: Option<Resource>, count: int)
    requires Inv(w) && pid in w.claims.creators
    ensures AnswersExactly(w, CreatorStep(w, pid, io, resource, count), pid, io, w.claims.creators[pid].req)
  {
    hide Inv, CreationInv, History.HistoryInv, Books.OutboxInv, PreparedOk, AnswersExactly, PlainAnswers, StepReadClaim, StepRecover,
         StepClaim, StepCheckEvent, StepReadResource, StepCount, StepPersist, StepReadToken, StepCompletionRead,
         StepCompletionWrite, StepReconcile;
    Parts(w);
    var req, pc := w.claims.creators[pid].req, w.claims.creators[pid].pc;
    if pc.ReadingClaim? {
      ReadClaimExactly(w, pid, req, io);
    } else if pc.Recovering? {
      RecoverExactly(w, pid, req, pc.record, io);
    } else if pc.CompletionRead? || pc.CompletionWrite? || pc.CompletionReconcile? {
      CompletingPlain(w, pid, io, resource, count);
      PlainExactly(w, CreatorStep(w, pid, io, resource, count), pid, io);
    } else {
      OtherStepsPlain(w, pid, io, resource, count);
      PlainExactly(w, CreatorStep(w, pid, io, resource, count), pid, io);
    }
  }

  // ----- The steps before a conflict -----

  /** The handler's claim found the record still processing, and of its own payload. */
  predicate SawProcessing(w: World, a: Action, pid: nat, req: Request) {
    var k := req.documentKey;
    && a.StepCreate? && a.pid == pid && a.io.Works? && Steps.Runs(w, pid, req, ReadingClaim)
    && k in w.claims.idem && w.claims.idem[k].doc.status.Processing?
    && k in w.claims.owners && w.claims.owners[k].cmd.Payload() == req.cmd.Payload()
  }

  predicate IsRecovering(w: World, pid: nat, req: Request) {
    pid in w.claims.creators && w.claims.creators[pid].req == req && w.claims.creators[pid].pc.Recovering?
  }

  /** Only the handler that steps can start recovering, from reading its claim. */
  lemma OnlyReadClaimRecovers(w: World, pid: nat, io: Io, resource: Option<Resource>, count: int, other: nat, req: Request)
    requires IsRecovering(CreatorStep(w, pid, io, resource, count), other, req) && !IsRecovering(w, other, req)
    ensures other == pid && pid in w.claims.creators && w.claims.creators[pid] == Creator(req, ReadingClaim)
  {
    if pid in w.claims.creators {
      hide CreatorStep;
      StepFramed(w, pid, io, resource, count);
      if other != pid { OthersAlone(w, pid, io, resource, count, other); }
    }
  }

  lemma EntersRecovering(w: World, a: Action, pid: nat, req: Request)
    requires Inv(w) && IsRecovering(Act(w, a), pid, req) && !IsRecovering(w, pid, req)
    ensures SawProcessing(w, a, pid, req)
  {
    hide Inv, CreatorStep, EditorStep, PublisherStep, Prepare, Fresh, CreationInv, History.HistoryInv, Books.OutboxInv;
    assert a.StepCreate?;
    OnlyReadClaimRecovers(w, a.pid, a.io, a.resource, a.count, pid, req);
    Parts(w);
    ReadClaimEnters(w, pid, req, a.io, a.resource, a.count);
  }

  lemma ReadClaimEnters(w: World, pid: nat, req: Request, io: Io, resource: Option<Resource>, count: int)
    requires CreationInv(w) && Steps.Runs(w, pid, req, ReadingClaim)
    requires IsRecovering(CreatorStep(w, pid, io, resource, count), pid, req)
    ensures SawProcessing(w, StepCreate(pid, io, resource, count), pid, req)
  {
    hide CreationInv, SharedOk, KeysOk, Agree, Replay;
    Steps.Now(w, pid, req, ReadingClaim);
    RecordKeys(w);
    if req.documentKey in w.claims.idem {
      Steps.ReadRecord(SharedOf(w), w.claims.issued, req);
      AgreeMeans(req, w.claims.owners[req.documentKey]);
      RecordFingerprint(w.claims.idem[req.documentKey].doc, w.claims.owners[req.documentKey], w.ledger.created);
    }
  }

  lemma RecordFingerprint(record: Record, owner: Request, created: map<ReservationKey, Creation>)
    requires RecordOk(record, owner, created)
    ensures record.fingerprint == owner.fingerprint
  {
    hide SnapshotOf;
  }

  /** Whoever recovers has read the claim before, and found it processing. */
  lemma {:induction false} RecoveringSaw(actions: seq<Action>, pid: nat, req: Request) returns (j: nat)
    requires IsRecovering(Run(actions), pid, req)
    ensures j < |actions| && SawProcessing(Run(actions[..j]), actions[j], pid, req)
    decreases |actions|
  {
    hide Inv, Act, IsRecovering, SawProcessing;
    if actions == [] {
      NobodyRecovers(pid, req);
    } else {
      var n := |actions| - 1;
      RunKeeps(actions[..n]);
      if IsRecovering(Run(actions[..n]), pid, req) {
        j := RecoveringSaw(actions[..n], pid, req);
        assert actions[..n][..j] == actions[..j];
      } else {
        EntersRecovering(Run(actions[..n]), actions[n], pid, req);
        j := n;
      }
    }
  }

  lemma NobodyRecovers(pid: nat, req: Request)
    ensures !IsRecovering(Initial, pid, req)
  {
  }

  /**
   Action `i` answers the request a conflict: either its claim finds a record of another payload;
   or its claim found the record processing at an earlier action, and by action `i`, which reads
   the reservation, that reservation has been edited.
   */
  ghost predicate ConflictAt(actions: seq<Action>, i: nat, req: Request)
    requires i < |actions|
  {
    var w, a := Run(actions[..i]), actions[i];
    && a.StepCreate? && ConflictStep(w, a.pid, a.io, req)
    && (IsRecovering(w, a.pid, req) ==>
          exists j :: 0 <= j < i && SawProcessing(Run(actions[..j]), actions[j], a.pid, req))
  }

  lemma ConflictStepAt(actions: seq<Action>, req: Request)
    requires actions != []
    requires var n := |actions| - 1;
      actions[n].StepCreate? && ConflictStep(Run(actions[..n]), actions[n].pid, actions[n].io, req)
    ensures ConflictAt(actions, |actions| - 1, req)
  {
    hide ConflictStep, SawProcessing, IsRecovering, Run;
    var n := |actions| - 1;
    if IsRecovering(Run(actions[..n]), actions[n].pid, req) {
      var j := RecoveringSaw(actions[..n], actions[n].pid, req);
      assert actions[..n][..j] == actions[..j] && actions[..n][j] == actions[j];
    }
  }

  lemma ConflictAtEarlier(actions: seq<Action>, i: nat, req: Request)
    requires actions != [] && i < |actions| - 1 && ConflictAt(actions[..|actions| - 1], i, req)
    ensures ConflictAt(actions, i, req)
  {
    hide ConflictStep, SawProcessing, IsRecovering, Run;
    var init := actions[..|actions| - 1];
    assert init[..i] == actions[..i] && init[i] == actions[i];
    if IsRecovering(Run(actions[..i]), actions[i].pid, req) {
      var j :| 0 <= j < i && SawProcessing(Run(init[..j]), init[j], init[i].pid, req);
      assert init[..j] == actions[..j] && init[j] == actions[j];
    }
  }

  lemma ActAnswers(w: World, a: Action, r: Response)
    requires Inv(w) && r in Act(w, a).claims.responses && r !in w.claims.responses && IsConflict(r.outcome)
    ensures a.StepCreate? && ConflictStep(w, a.pid, a.io, r.req) && r.outcome == CONFLICT
  {
    hide Inv, CreatorStep, EditorStep, PublisherStep, Prepare, Fresh, ConflictStep, IsConflict;
    assert a.StepCreate?;
    if a.pid in w.claims.creators {
      CreatorExactly(w, a.pid, a.io, a.resource, a.count);
    } else {
      NoStep(w, a);
    }
  }

  lemma NoStep(w: World, a: Action)
    requires a.StepCreate? && a.pid !in w.claims.creators
    ensures Act(w, a) == w
  {
    hide StepClaim, StepReadClaim, StepRecover, StepCheckEvent, StepReadResource, StepCount, StepPersist, StepReadToken,
         StepCompletionRead, StepCompletionWrite, StepReconcile;
  }

  lemma {:induction false} ConflictHasStep(actions: seq<Action>, r: Response) returns (i: nat)
    requires r in Run(actions).claims.responses && IsConflict(r.outcome)
    ensures r.outcome == CONFLICT && i < |actions| && ConflictAt(actions, i, r.req)
    decreases |actions|
  {
    hide Inv, Act, ConflictStep, IsConflict, ConflictAt;
    if actions == [] {
      assert false;
    } else {
      var n := |actions| - 1;
      RunKeeps(actions[..n]);
      if r in Run(actions[..n]).claims.responses {
        i := ConflictHasStep(actions[..n], r);
        ConflictAtEarlier(actions, i, r.req);
      } else {
        ActAnswers(Run(actions[..n]), actions[n], r);
        ConflictStepAt(actions, r.req);
        i := n;
      }
    }
  }

  lemma ConflictStepAnswers(w: World, a: Action, req: Request)
    requires Inv(w) && a.StepCreate? && ConflictStep(w, a.pid, a.io, req)
    ensures Response(req, CONFLICT) in Act(w, a).claims.responses
  {
    hide Inv, CreatorStep;
    CreatorExactly(w, a.pid, a.io, a.resource, a.count);
  }

  lemma StepAnswersConflict(actions: seq<Action>, i: nat, req: Request)
    requires i < |actions| && ConflictAt(actions, i, req)
    ensures Response(req, CONFLICT) in Run(actions).claims.responses
  {
    hide Inv, Act, ConflictStep, IsRecovering, SawProcessing;
    RunKeeps(actions[..i]);
    ConflictStepAnswers(Run(actions[..i]), actions[i], req);
    assert actions[..i + 1][..i] == actions[..i];
    assert Run(actions[..i + 1]) == Act(Run(actions[..i]), actions[i]);
    assert actions[..i + 1] + actions[i + 1..] == actions;
    AnswersStay(actions[..i + 1], actions[i + 1..], Response(req, CONFLICT));
  }

  lemma AnswersStay(actions: seq<Action>, more: seq<Action>, r: Response)
    requires r in Run(actions).claims.responses
    ensures r in Run(actions + more).claims.responses
  {
    hide Run, LedgerLater, OutboxLater;
    RunLater(actions, more);
  }

  /**
   In every run, a request is answered a conflict if and only if some action of its handler reads a
   record of another payload, or reads an edited reservation after the claim read the record as
   processing. The edit may come before or after the record is completed.
   */
  lemma ConflictsExplained(actions: seq<Action>, req: Request)
    ensures Response(req, CONFLICT) in Run(actions).claims.responses
            <==> exists i :: 0 <= i < |actions| && ConflictAt(actions, i, req)
    ensures forall r :: r in Run(actions).claims.responses && IsConflict(r.outcome) ==> r.outcome == CONFLICT
  {
    hide Run, ConflictAt;
    if Response(req, CONFLICT) in Run(actions).claims.responses {
      var i := ConflictHasStep(actions, Response(req, CONFLICT));
    }
    if i :| 0 <= i < |actions| && ConflictAt(actions, i, req) {
      StepAnswersConflict(actions, i, req);
    }
    forall r | r in Run(actions).claims.responses && IsConflict(r.outcome)
      ensures r.outcome == CONFLICT
    {
      var i := ConflictHasStep(actions, r);
    }
  }
}
