/**
 Edits in runs: every change in the history of a reservation was submitted by somebody who was
 allowed to make it, and an edit that runs alone does what the serialized schedule decides.
 */
module EditRuns {
  import opened Wrappers
  import opened Timestamp
  import opened Domain
  import opened Idempotency
  import opened Handlers
  import opened Lifecycle
  import opened Schedule
  import opened World
  import opened Runs
  import opened StepShapes
  import opened SystemInvariant
  import opened SystemTheorems
  import opened ConcurrentCapacity
  import History = ReservationHistory

  // ----- Who may change what -----

  /** Nothing about the reservation differs but the end of its interval, its status, its decision records and its version. */
  predicate SameReservation(a: ReservationState, b: ReservationState) {
    && (a.org, a.id, a.resource, a.creator) == (b.org, b.id, b.resource, b.creator)
    && a.purpose == b.purpose && a.kind == b.kind && a.interval.start == b.interval.start
  }

  /** What a command may do to a reservation, who may give it, and what it leaves behind. */
  predicate Permitted(c: EditCommand, before: ReservationState, after: ReservationState) {
    && (c.org, c.id) == (before.org, before.id) && SameReservation(before, after)
    && match c
       case ApproveCommand(_, _, approver, at, _) =>
         && before.status == PendingApproval && after.status == Confirmed && after.interval == before.interval
         && after.approval == Some(ApprovalInfo(approver, at))
         && after.rejection == before.rejection && after.cancellation == before.cancellation
       case RejectCommand(_, _, rejecter, at, _, reason) =>
         && before.status == PendingApproval && after.status == Rejected && after.interval == before.interval
         && after.rejection == Some(RejectionInfo(rejecter, at, reason))
         && after.approval == before.approval && after.cancellation == before.cancellation
       case CancelCommand(_, _, caller, at, _, reason, bypassOwner) =>
         && (bypassOwner || caller == before.creator)
         && (before.status == PendingApproval || before.status == Confirmed) && after.status == Cancelled
         && after.interval == before.interval && after.cancellation == Some(CancellationInfo(caller, at, reason))
         && after.approval == before.approval && after.rejection == before.rejection
       case ExtendCommand(_, _, caller, interval, _, _) =>
         && caller == before.creator && before.status == Confirmed && after.status == Confirmed
         && after.interval == interval && before.interval.end < interval.end && Accepts(interval, before.kind, true)
         && after.approval == before.approval && after.rejection == before.rejection
         && after.cancellation == before.cancellation
  }

  lemma EditsPermitted(c: EditCommand, key: ReservationKey, before: ReservationState, after: ReservationState)
    requires History.Edits(c, key, before, after) && key == (before.org, before.id)
    ensures Permitted(c, before, after)
  {
    var t := DecidedTransition(Decide(c, before)).value;
    TransitionExact(before, t);
    match c
    case ApproveCommand(_, _, _, _, _) => ReviewExact(c, before);
    case RejectCommand(_, _, _, _, _, _) => ReviewExact(c, before);
    case CancelCommand(_, _, _, _, _, _, _) => CancellationExact(c, before);
    case ExtendCommand(_, _, _, _, _, _) => ExtensionExact(c, before);
    hide Decide, Next, Enabled, Accepts;
  }

  // ----- Every change was submitted -----

  ghost predicate Submitted(actions: seq<Action>, c: EditCommand) {
    exists n :: 0 <= n < |actions| && actions[n].SubmitEdit? && actions[n].edit == c
  }

  lemma StillSubmitted(actions: seq<Action>, c: EditCommand)
    requires actions != [] && Submitted(actions[..|actions| - 1], c)
    ensures Submitted(actions, c)
  {
    var init := actions[..|actions| - 1];
    var n :| 0 <= n < |init| && init[n].SubmitEdit? && init[n].edit == c;
    assert actions[n] == init[n];
  }

  /** An edit handler runs a command that was submitted to it. */
  lemma HandlerBy(w: World, a: Action, p: nat)
    requires p in Act(w, a).ledger.editors
    ensures || (p in w.ledger.editors && Act(w, a).ledger.editors[p].cmd == w.ledger.editors[p].cmd)
            || (a.SubmitEdit? && a.edit == Act(w, a).ledger.editors[p].cmd)
  {
    hide CreatorStep, EditorStep, PublisherStep, Prepare, Fresh;
    if a.StepCreate? { CreatorsKeepEditors(w, a.pid, a.io, a.resource, a.count); }
    if a.StepEdit? { EditorsKeepCommands(w.ledger, a.pid, a.io, a.conflict, p); }
  }

  lemma CreatorsKeepEditors(w: World, pid: nat, io: Io, resource: Option<Resource>, count: int)
    ensures CreatorStep(w, pid, io, resource, count).ledger.editors == w.ledger.editors
  {
    if pid in w.claims.creators {
      hide CreatorStep;
      StepFramed(w, pid, io, resource, count);
      if w.claims.creators[pid].pc.Persisting? { PersistKeepsEditors(w, pid, io, resource, count); }
    }
  }

  lemma PersistKeepsEditors(w: World, pid: nat, io: Io, resource: Option<Resource>, count: int)
    requires pid in w.claims.creators && w.claims.creators[pid].pc.Persisting?
    ensures CreatorStep(w, pid, io, resource, count).ledger.editors == w.ledger.editors
  {
    hide StepPersist;
    var c := w.claims.creators[pid];
    PersistFrame(w, pid, c.req, c.pc.pending, io);
  }

  lemma EditorsKeepCommands(l: Ledger, pid: nat, io: Io, conflict: bool, p: nat)
    requires p in EditorStep(l, pid, io, conflict).editors
    ensures p in l.editors && EditorStep(l, pid, io, conflict).editors[p].cmd == l.editors[p].cmd
  {
    hide StepLoad, StepWrite;
    if pid in l.editors {
      var cmd, pc := l.editors[pid].cmd, l.editors[pid].pc;
      match pc
      case Loading => LoadKeepsCommands(l, pid, cmd, (cmd.org, cmd.id), io, p);
      case CheckingConflict(_, _, _) =>
      case Writing(loaded, token, t) => WriteKeepsCommands(l, pid, (cmd.org, cmd.id), loaded, token, t, io);
    }
  }

  lemma LoadKeepsCommands(l: Ledger, pid: nat, cmd: EditCommand, key: ReservationKey, io: Io, p: nat)
    requires pid in l.editors && l.editors[pid].cmd == cmd && p in StepLoad(l, pid, cmd, key, io).editors
    ensures p in l.editors && StepLoad(l, pid, cmd, key, io).editors[p].cmd == l.editors[p].cmd
  {
    hide Decide;
  }

  lemma WriteKeepsCommands(l: Ledger, pid: nat, key: ReservationKey, loaded: ReservationState, token: nat, t: Transition, io: Io)
    ensures StepWrite(l, pid, key, loaded, token, t, io).editors == l.editors - {pid}
  {
    hide Enabled, Next;
  }

  ghost predicate HandlersSubmitted(actions: seq<Action>) {
    var editors := Run(actions).ledger.editors;
    forall p :: p in editors ==> Submitted(actions, editors[p].cmd)
  }

  lemma {:induction false} AllHandlersSubmitted(actions: seq<Action>)
    ensures HandlersSubmitted(actions)
    decreases |actions|
  {
    hide Act, Submitted;
    if actions != [] {
      var n := |actions| - 1;
      var w := Run(actions[..n]);
      AllHandlersSubmitted(actions[..n]);
      forall p | p in Run(actions).ledger.editors
        ensures Submitted(actions, Run(actions).ledger.editors[p].cmd)
      {
        HandlerBy(w, actions[n], p);
        var c := Run(actions).ledger.editors[p].cmd;
        if p in w.ledger.editors && w.ledger.editors[p].cmd == c {
          StillSubmitted(actions, c);
        } else {
          SubmittedNow(actions, c);
        }
      }
    }
  }

  lemma SubmittedNow(actions: seq<Action>, c: EditCommand)
    requires actions != [] && actions[|actions| - 1].SubmitEdit? && actions[|actions| - 1].edit == c
    ensures Submitted(actions, c)
  {
  }

  // ----- Every change was permitted -----

  /** The change from `before` to `after` was submitted and permitted. */
  ghost predicate Legitimate(actions: seq<Action>, before: ReservationState, after: ReservationState) {
    exists c: EditCommand :: Submitted(actions, c) && Permitted(c, before, after)
  }

  /** The action appends a change that was decided for the command of its handler, or starts the history. */
  lemma HistoryBy(w: World, a: Action, key: ReservationKey)
    requires Inv(w) && key in Act(w, a).ledger.history
    ensures || (key in w.ledger.history && Act(w, a).ledger.history[key] == w.ledger.history[key])
            || |Act(w, a).ledger.history[key]| == 1
            || (a.StepEdit? && a.pid in w.ledger.editors && key in w.ledger.history && w.ledger.history[key] != []
                && var h, h' := w.ledger.history[key], Act(w, a).ledger.history[key];
                   |h'| == |h| + 1 && h' == h + [h'[|h|]] && Permitted(w.ledger.editors[a.pid].cmd, h[|h| - 1], h'[|h|]))
  {
    hide Inv, CreatorStep, EditorStep, PublisherStep, Prepare, Fresh, Permitted;
    if a.StepCreate? {
      CreatorsHistory(w, a.pid, a.io, a.resource, a.count, key);
    } else if a.StepEdit? {
      Parts(w);
      EditorHistory(w.ledger, a.pid, a.io, a.conflict, key);
    }
  }

  lemma CreatorsHistory(w: World, pid: nat, io: Io, resource: Option<Resource>, count: int, key: ReservationKey)
    requires key in CreatorStep(w, pid, io, resource, count).ledger.history
    ensures var h := CreatorStep(w, pid, io, resource, count).ledger.history[key];
      (key in w.ledger.history && h == w.ledger.history[key]) || |h| == 1
  {
    if pid in w.claims.creators {
      hide CreatorStep;
      StepFramed(w, pid, io, resource, count);
      if w.claims.creators[pid].pc.Persisting? { PersistHistory(w, pid, io, resource, count, key); }
    }
  }

  lemma PersistHistory(w: World, pid: nat, io: Io, resource: Option<Resource>, count: int, key: ReservationKey)
    requires pid in w.claims.creators && w.claims.creators[pid].pc.Persisting?
    requires key in CreatorStep(w, pid, io, resource, count).ledger.history
    ensures var h := CreatorStep(w, pid, io, resource, count).ledger.history[key];
      (key in w.ledger.history && h == w.ledger.history[key]) || |h| == 1
  {
    hide StepPersist;
    var c := w.claims.creators[pid];
    PersistFrame(w, pid, c.req, c.pc.pending, io);
  }

  lemma EditorHistory(l: Ledger, pid: nat, io: Io, conflict: bool, key: ReservationKey)
    requires History.HistoryInv(l) && key in EditorStep(l, pid, io, conflict).history
    ensures || (key in l.history && EditorStep(l, pid, io, conflict).history[key] == l.history[key])
            || (pid in l.editors && key in l.history && l.history[key] != []
                && var h, h' := l.history[key], EditorStep(l, pid, io, conflict).history[key];
                   |h'| == |h| + 1 && h' == h + [h'[|h|]] && Permitted(l.editors[pid].cmd, h[|h| - 1], h'[|h|]))
  {
    hide StepLoad, StepWrite, Permitted, History.HistoryInv;
    if pid in l.editors {
      var cmd, pc := l.editors[pid].cmd, l.editors[pid].pc;
      match pc
      case Loading => LoadHistory(l, pid, cmd, (cmd.org, cmd.id), io);
      case CheckingConflict(_, _, _) =>
      case Writing(loaded, token, t) => WriteHistory(l, pid, cmd, loaded, token, t, io, key);
    }
  }

  lemma LoadHistory(l: Ledger, pid: nat, cmd: EditCommand, key: ReservationKey, io: Io)
    ensures StepLoad(l, pid, cmd, key, io).history == l.history
  {
    hide Decide;
  }

  lemma WriteHistory(l: Ledger, pid: nat, cmd: EditCommand, loaded: ReservationState, token: nat, t: Transition, io: Io,
                     key: ReservationKey)
    requires History.HistoryInv(l) && pid in l.editors && l.editors[pid] == Editor(cmd, Writing(loaded, token, t))
    requires key in StepWrite(l, pid, (cmd.org, cmd.id), loaded, token, t, io).history
    ensures || (key in l.history && StepWrite(l, pid, (cmd.org, cmd.id), loaded, token, t, io).history[key] == l.history[key])
            || (key in l.history && l.history[key] != []
                && var h, h' := l.history[key], StepWrite(l, pid, (cmd.org, cmd.id), loaded, token, t, io).history[key];
                   |h'| == |h| + 1 && h' == h + [h'[|h|]] && Permitted(cmd, h[|h| - 1], h'[|h|]))
  {
    hide Decide, Next, Enabled, Permitted, History.LedgerOk, History.AcknowledgementsOk, History.Edits;
    var k: ReservationKey := (cmd.org, cmd.id);
    assert History.EditorOk(l.editors[pid], l);
    if Effective(io) && l.reservations[k].cas == token && Enabled(loaded, t) {
      History.WriteReplaces(l, pid, cmd, loaded, token, t, io);
      StoredEnds(l, k);
      History.StoredUnderKey(l, k);
      EditsPermitted(cmd, k, l.reservations[k].doc, Next(loaded, t));
    }
  }

  lemma StoredEnds(l: Ledger, key: ReservationKey)
    requires History.LedgerOk(l) && key in l.reservations
    ensures key in l.history && l.history[key] != [] && l.history[key][|l.history[key]| - 1] == l.reservations[key].doc
  {
    hide History.Chain, History.EditorsOk, History.AcknowledgementsOk;
    assert History.KeyOk(l, key);
  }

  ghost predicate HistoriesLegitimate(actions: seq<Action>) {
    var history := Run(actions).ledger.history;
    forall key, i :: key in history && 0 <= i < |history[key]| - 1 ==>
      Legitimate(actions, history[key][i], history[key][i + 1])
  }

  lemma StillLegitimate(actions: seq<Action>, before: ReservationState, after: ReservationState)
    requires actions != [] && Legitimate(actions[..|actions| - 1], before, after)
    ensures Legitimate(actions, before, after)
  {
    hide Submitted, Permitted;
    var c: EditCommand :| Submitted(actions[..|actions| - 1], c) && Permitted(c, before, after);
    StillSubmitted(actions, c);
  }

  lemma {:induction false} AllHistoriesLegitimate(actions: seq<Action>)
    ensures HistoriesLegitimate(actions)
    decreases |actions|
  {
    hide Act, Inv, Legitimate, Submitted, Permitted;
    if actions != [] {
      var n := |actions| - 1;
      var w, w' := Run(actions[..n]), Run(actions);
      AllHistoriesLegitimate(actions[..n]);
      RunKeeps(actions[..n]);
      forall key, i | key in w'.ledger.history && 0 <= i < |w'.ledger.history[key]| - 1
        ensures Legitimate(actions, w'.ledger.history[key][i], w'.ledger.history[key][i + 1])
      {
        HistoryBy(w, actions[n], key);
        var h' := w'.ledger.history[key];
        if key in w.ledger.history && i < |w.ledger.history[key]| - 1 {
          var h := w.ledger.history[key];
          assert h'[i] == h[i] && h'[i + 1] == h[i + 1];
          StillLegitimate(actions, h[i], h[i + 1]);
        } else {
          AllHandlersSubmitted(actions[..n]);
          var c := w.ledger.editors[actions[n].pid].cmd;
          StillSubmitted(actions, c);
          LegitimateBy(actions, c, h'[i], h'[i + 1]);
        }
      }
    }
  }

  lemma LegitimateBy(actions: seq<Action>, c: EditCommand, before: ReservationState, after: ReservationState)
    requires Submitted(actions, c) && Permitted(c, before, after)
    ensures Legitimate(actions, before, after)
  {
    hide Submitted, Permitted;
  }

  /**
   In every run, each change in the history of a reservation was submitted as a command that was
   permitted to make it: cancellations by the creator or with the owner check bypassed, extensions
   by the creator and within what the policy accepts.
   */
  lemma ChangesWereSubmitted(actions: seq<Action>, key: ReservationKey, i: nat)
    requires key in Run(actions).ledger.history && i < |Run(actions).ledger.history[key]| - 1
    ensures var h := Run(actions).ledger.history[key];
      exists c: EditCommand :: Submitted(actions, c) && Permitted(c, h[i], h[i + 1])
  {
    hide Run, Submitted, Permitted;
    AllHistoriesLegitimate(actions);
    assert Legitimate(actions, Run(actions).ledger.history[key][i], Run(actions).ledger.history[key][i + 1]);
  }

  // ----- An edit that runs alone -----

  /** The answer of `has_conflict_excluding`, if it is asked. */
  predicate Conflicts(book: Book, c: EditCommand) {
    (c.org, c.id) in book &&
    var r := book[(c.org, c.id)];
    Decide(c, r).ApplyUnlessConflict? && ConflictExcluding(book, c.org, r.resource, Decide(c, r).interval, c.id)
  }

  /** A call with working stores that is answered `conflict`. */
  function EditCall(pid: nat, c: EditCommand, conflict: bool): seq<Action> {
    var step := StepEdit(pid, Works, conflict);
    [SubmitEdit(pid, c), step, step, step]
  }

  /** The handler has ended; the reservations are as `book` says, and exactly a done edit is acknowledged. */
  predicate EditDone(w: World, w': World, pid: nat, c: EditCommand) {
    var before, d, key: Key := BookOf(w.ledger), DecideEdit(BookOf(w.ledger), c), (c.org, c.id);
    && pid !in w'.ledger.editors && w'.claims == w.claims && w'.outbox == w.outbox
    && BookOf(w'.ledger) == AfterEdit(before, c)
    && w'.ledger.acknowledged == w.ledger.acknowledged
         + if d.Success? && key in before then {Acknowledgement(key, before[key], d.value)} else {}
  }

  function EditGoes(l: Ledger, pid: nat, conflict: bool): Ledger {
    EditorStep(l, pid, Works, conflict)
  }

  lemma PlayEdit(w: World, pid: nat, c: EditCommand, conflict: bool)
    requires pid !in w.ledger.editors
    ensures var l1 := MoveEditor(w.ledger, pid, c, Loading);
      Play(w, EditCall(pid, c, conflict))
      == w.(ledger := EditGoes(EditGoes(EditGoes(l1, pid, conflict), pid, conflict), pid, conflict))
  {
    hide EditorStep;
    var a := StepEdit(pid, Works, conflict);
    PlayFour(w, SubmitEdit(pid, c), a, a, a);
  }

  /** What one call leaves of a ledger in which no handler of that name is at work. */
  function Edited(l: Ledger, c: EditCommand): Ledger {
    var key: ReservationKey := (c.org, c.id);
    match DecideEdit(BookOf(l), c)
    case Failure(_) => l
    case Success(r) =>
      if key !in l.reservations then l
      else
        ReplaceReservation(l, key, r).(acknowledged :=
          l.acknowledged + {Acknowledgement(key, l.reservations[key].doc, r)})
  }

  lemma Finished(l: Ledger, pid: nat, c: EditCommand, pc: EditPc)
    requires pid !in l.editors
    ensures FinishEditor(MoveEditor(l, pid, c, pc), pid) == l
  {
    assert l.editors[pid := Editor(c, pc)] - {pid} == l.editors;
  }

  lemma MovedOn(l: Ledger, pid: nat, c: EditCommand, pc: EditPc, next: EditPc)
    ensures MoveEditor(MoveEditor(l, pid, c, pc), pid, c, next) == MoveEditor(l, pid, c, next)
  {
    assert l.editors[pid := Editor(c, pc)][pid := Editor(c, next)] == l.editors[pid := Editor(c, next)];
  }

  lemma Idles(l: Ledger, pid: nat, conflict: bool)
    requires pid !in l.editors
    ensures EditGoes(l, pid, conflict) == l
  {
    hide StepLoad, StepWrite;
  }

  lemma Loads(l: Ledger, pid: nat, c: EditCommand, conflict: bool)
    requires pid !in l.editors && History.HistoryInv(l)
    ensures var key: ReservationKey := (c.org, c.id);
      var after := EditGoes(MoveEditor(l, pid, c, Loading), pid, conflict);
      if key !in l.reservations then after == l
      else
        var stored := l.reservations[key];
        match Decide(c, stored.doc)
        case Refuse(_) => after == l
        case Apply(t) => after == MoveEditor(l, pid, c, Writing(stored.doc, stored.cas, t))
        case ApplyUnlessConflict(_, t) => after == MoveEditor(l, pid, c, CheckingConflict(stored.doc, stored.cas, t))
  {
    hide Decide, History.HistoryInv, FinishEditor;
    var key: ReservationKey := (c.org, c.id);
    Finished(l, pid, c, Loading);
    if key in l.reservations {
      var stored := l.reservations[key];
      History.StoredUnderKey(l, key);
      match Decide(c, stored.doc)
      case Refuse(_) =>
      case Apply(t) => MovedOn(l, pid, c, Loading, Writing(stored.doc, stored.cas, t));
      case ApplyUnlessConflict(_, t) => MovedOn(l, pid, c, Loading, CheckingConflict(stored.doc, stored.cas, t));
    }
  }

  lemma Checks(l: Ledger, pid: nat, c: EditCommand, loaded: ReservationState, cas: nat, t: Transition, conflict: bool)
    requires pid !in l.editors
    ensures EditGoes(MoveEditor(l, pid, c, CheckingConflict(loaded, cas, t)), pid, conflict)
            == if conflict then l else MoveEditor(l, pid, c, Writing(loaded, cas, t))
  {
    hide FinishEditor;
    Finished(l, pid, c, CheckingConflict(loaded, cas, t));
    MovedOn(l, pid, c, CheckingConflict(loaded, cas, t), Writing(loaded, cas, t));
  }

  lemma Writes(l: Ledger, pid: nat, c: EditCommand, t: Transition, conflict: bool)
    requires pid !in l.editors && (c.org, c.id) in l.reservations && Enabled(l.reservations[(c.org, c.id)].doc, t)
    ensures var key: ReservationKey := (c.org, c.id); var stored := l.reservations[key];
      EditGoes(MoveEditor(l, pid, c, Writing(stored.doc, stored.cas, t)), pid, conflict)
      == ReplaceReservation(l, key, Next(stored.doc, t)).(acknowledged :=
           l.acknowledged + {Acknowledgement(key, stored.doc, Next(stored.doc, t))})
  {
    hide Enabled, Next, FinishEditor;
    var stored := l.reservations[(c.org, c.id)];
    Finished(l, pid, c, Writing(stored.doc, stored.cas, t));
    FinishFirst(l, pid, c, Writing(stored.doc, stored.cas, t), (c.org, c.id), Next(stored.doc, t));
  }

  lemma FinishFirst(l: Ledger, pid: nat, c: EditCommand, pc: EditPc, key: ReservationKey, r: ReservationState)
    requires pid !in l.editors
    ensures ReplaceReservation(FinishEditor(MoveEditor(l, pid, c, pc), pid), key, r) == ReplaceReservation(l, key, r)
  {
    Finished(l, pid, c, pc);
  }

  /** The three steps of a call. */
  lemma CallEdits(l: Ledger, pid: nat, c: EditCommand)
    requires pid !in l.editors && History.HistoryInv(l)
    ensures var conflict := Conflicts(BookOf(l), c);
      EditGoes(EditGoes(EditGoes(MoveEditor(l, pid, c, Loading), pid, conflict), pid, conflict), pid, conflict)
      == Edited(l, c)
  {
    hide EditGoes, MoveEditor, ReplaceReservation, History.HistoryInv, Next, Enabled, Decide, ConflictExcluding;
    var key, conflict: bool := (c.org, c.id), Conflicts(BookOf(l), c);
    Loads(l, pid, c, conflict);
    Idles(l, pid, conflict);
    EditedBook(l, c);
    if key in l.reservations {
      var stored := l.reservations[key];
      DecisionsAreEnabled(c, stored.doc);
      match Decide(c, stored.doc)
      case Refuse(_) =>
      case Apply(t) =>
        Writes(l, pid, c, t, conflict);
        Idles(Edited(l, c), pid, conflict);
      case ApplyUnlessConflict(_, t) =>
        Checks(l, pid, c, stored.doc, stored.cas, t, conflict);
        Writes(l, pid, c, t, conflict);
    }
  }

  lemma EditedBook(l: Ledger, c: EditCommand)
    ensures BookOf(Edited(l, c)) == AfterEdit(BookOf(l), c)
    ensures Edited(l, c).editors == l.editors
  {
    EditExact(BookOf(l), c);
    hide DecideEdit, Decide, Next, Enabled, ConflictingKeys;
    if (c.org, c.id) in l.reservations && DecideEdit(BookOf(l), c).Success? {
      BookReplaced(l, (c.org, c.id), DecideEdit(BookOf(l), c).value);
    }
  }

  /**
   After any run, an edit that runs alone with working stores and a true answer about conflicts does
   to the reservations what the schedule decides, and is acknowledged exactly if it was done.
   */
  lemma LoneEditDecides(actions: seq<Action>, pid: nat, c: EditCommand)
    requires pid !in Run(actions).ledger.editors
    ensures var w := Run(actions);
      EditDone(w, Run(actions + EditCall(pid, c, Conflicts(BookOf(w.ledger), c))), pid, c)
  {
    hide Run, Play, EditCall, EditGoes, MoveEditor, Inv, Conflicts, DecideEdit, Edited, EditDone, BookOf, History.HistoryInv;
    var w := Run(actions);
    var conflict := Conflicts(BookOf(w.ledger), c);
    RunKeeps(actions);
    Parts(w);
    RunThenPlay(actions, EditCall(pid, c, conflict));
    PlayEdit(w, pid, c, conflict);
    CallEdits(w.ledger, pid, c);
    DoneBy(w, pid, c);
  }

  lemma DoneBy(w: World, pid: nat, c: EditCommand)
    requires pid !in w.ledger.editors
    ensures EditDone(w, w.(ledger := Edited(w.ledger, c)), pid, c)
  {
    EditedBook(w.ledger, c);
    EditedAcknowledged(w.ledger, c);
    hide DecideEdit, Edited, AfterEdit;
  }

  lemma EditedAcknowledged(l: Ledger, c: EditCommand)
    ensures var key: Key := (c.org, c.id);
      Edited(l, c).acknowledged == l.acknowledged
        + if DecideEdit(BookOf(l), c).Success? && key in BookOf(l)
          then {Acknowledgement(key, BookOf(l)[key], DecideEdit(BookOf(l), c).value)} else {}
  {
    hide DecideEdit;
  }
}
