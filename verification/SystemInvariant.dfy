/** The invariant of the whole service, and its preservation by every action of every process. */
module SystemInvariant {
  import opened Wrappers
  import opened Timestamp
  import opened Domain
  import opened Idempotency
  import opened Handlers
  import opened World
  import opened StepShapes
  import opened CreationInvariant
  import Steps = CreationSteps
  import History = ReservationHistory
  import Books = OutboxInvariant

  /** Every issued request was prepared from a command of a size that fits. */
  ghost predicate PreparedOk(issued: set<Request>) {
    forall r :: r in issued ==> r == Prepare(r.cmd) && r.cmd.Fits()
  }

  ghost predicate Inv(w: World) {
    && CreationInv(w) && History.HistoryInv(w.ledger) && Books.OutboxInv(w.outbox, w.ledger.created)
    && PreparedOk(w.claims.issued)
  }

  lemma InitialInv()
    ensures Inv(Initial)
  {
  }

  // ----- New commands -----

  lemma FreshIsNew(req: Request, issued: set<Request>)
    requires Fresh(req, issued)
    ensures req !in issued
  {
    assert SharesId(req, req);
  }

  lemma KeysGrow(issued: set<Request>, req: Request)
    requires PreparedOk(issued) && req == Prepare(req.cmd) && req.cmd.Fits()
    ensures KeysOk(issued + {req}) && PreparedOk(issued + {req})
  {
    hide Prepare, Agree;
    forall a, b | a in issued + {req} && b in issued + {req}
      ensures Agree(a, b)
    {
      PreparedAgree(a.cmd, b.cmd);
    }
  }

  lemma SharesSymmetric(a: Request, b: Request)
    ensures SharesId(a, b) == SharesId(b, a)
  {
    assert a.cmd.ids.EventIds() * b.cmd.ids.EventIds() == b.cmd.ids.EventIds() * a.cmd.ids.EventIds();
  }

  lemma SharedGrows(s: Shared, issued: set<Request>, req: Request)
    requires SharedOk(s, issued) && Fresh(req, issued)
    ensures SharedOk(s, issued + {req})
  {
    hide SharesId, RecordOk;
    forall a, b | a in issued + {req} && b in issued + {req} && SharesId(a, b)
      ensures a == b
    {
      SharesSymmetric(a, b);
    }
  }

  lemma SubmitKeeps(w: World, pid: nat, cmd: Command)
    requires Inv(w) && pid !in w.claims.creators && cmd.Fits() && Fresh(Prepare(cmd), w.claims.issued)
    ensures Inv(Act(w, SubmitCreate(pid, cmd)))
  {
    hide Prepare, SharedOk, KeysOk, Fresh, PreparedOk, CreatorOk, ResponseOk, History.HistoryInv, Books.OutboxInv;
    var req := Prepare(cmd);
    PreparedCommand(cmd);
    FreshIsNew(req, w.claims.issued);
    KeysGrow(w.claims.issued, req);
    SharedGrows(SharedOf(w), w.claims.issued, req);
    var w' := Act(w, SubmitCreate(pid, cmd));
    assert w'.claims.creators == w.claims.creators[pid := Creator(req, Claiming)];
    assert SharedOf(w') == SharedOf(w);
    ClaimingOk(req, SharedOf(w));
  }

  lemma PreparedCommand(cmd: Command)
    ensures Prepare(cmd).cmd == cmd
  {
  }

  lemma ClaimingOk(req: Request, s: Shared)
    ensures CreatorOk(Creator(req, Claiming), s)
  {
  }

  lemma CrashCreateKeeps(w: World, pid: nat)
    requires Inv(w)
    ensures Inv(Act(w, CrashCreate(pid)))
  {
    hide SharedOk, KeysOk, PreparedOk, CreatorOk, ResponseOk, History.HistoryInv, Books.OutboxInv;
    assert SharedOf(Act(w, CrashCreate(pid))) == SharedOf(w);
  }

  // ----- Frames -----

  predicate SameStores(w: World, w': World) {
    w'.ledger == w.ledger && w'.outbox == w.outbox && w'.claims.issued == w.claims.issued
  }

  /** Only the step that persists touches reservations and the outbox. */
  lemma CreatorFrame(w: World, pid: nat, io: Io, resource: Option<Resource>, count: int)
    requires pid in w.claims.creators && !w.claims.creators[pid].pc.Persisting?
    ensures SameStores(w, CreatorStep(w, pid, io, resource, count))
  {
    hide CreatorStep;
    StepFramed(w, pid, io, resource, count);
  }

  predicate Persisted(w: World, w': World, c: Creation) {
    && KeyOfReservation(c.req) !in w.ledger.reservations
    && KeysOfEvents(c).0 !in w.outbox.entries && KeysOfEvents(c).1 !in w.outbox.entries
    && w'.ledger == InsertReservation(w.ledger, c) && w'.outbox == InsertEvents(w.outbox, c)
    && w'.claims.issued == w.claims.issued
  }

  lemma PersistFrame(w: World, pid: nat, req: Request, pending: bool, io: Io)
    ensures var w' := StepPersist(w, pid, req, pending, io);
      SameStores(w, w') || Persisted(w, w', Creation(req, pending))
  {
    hide KeysOfEvents, InsertReservation, InsertEvents;
  }

  lemma StepCreateKeeps(w: World, pid: nat, io: Io, resource: Option<Resource>, count: int)
    requires Inv(w)
    ensures Inv(Act(w, StepCreate(pid, io, resource, count)))
  {
    hide CreationInv, History.HistoryInv, Books.OutboxInv, PreparedOk, StepPersist, InsertReservation, InsertEvents;
    var w' := CreatorStep(w, pid, io, resource, count);
    Steps.CreatorStepKeeps(w, pid, io, resource, count);
    if pid !in w.claims.creators {
    } else if !w.claims.creators[pid].pc.Persisting? {
      hide CreatorStep;
      CreatorFrame(w, pid, io, resource, count);
    } else {
      var req, pending := w.claims.creators[pid].req, w.claims.creators[pid].pc.pending;
      PersistFrame(w, pid, req, pending, io);
      if !SameStores(w, w') {
        hide CreatorStep;
        PersistedKeeps(w, w', Creation(req, pending));
      }
    }
  }

  lemma PersistedKeeps(w: World, w': World, c: Creation)
    requires Inv(w) && Persisted(w, w', c)
    ensures History.HistoryInv(w'.ledger) && Books.OutboxInv(w'.outbox, w'.ledger.created)
  {
    hide CreationInv, History.HistoryInv, Books.OutboxInv, PreparedOk, InsertEvents;
    History.InsertKeeps(w.ledger, c);
    Steps.LedgerKeys(w.ledger);
    Books.InsertedKeeps(w.outbox, c, w.ledger.created);
  }

  // ----- Edits and publishers -----

  lemma LedgerKeeps(w: World, l: Ledger)
    requires Inv(w) && History.HistoryInv(l) && l.created == w.ledger.created
    ensures Inv(w.(ledger := l))
  {
    hide SharedOk, KeysOk, CreatorsOk, ResponsesOk, History.HistoryInv, Books.OutboxInv, PreparedOk;
    assert SharedOf(w.(ledger := l)) == SharedOf(w);
  }

  lemma OutboxKeeps(w: World, o: Outbox)
    requires Inv(w) && Books.OutboxInv(o, w.ledger.created)
    ensures Inv(w.(outbox := o))
  {
    hide SharedOk, KeysOk, CreatorsOk, ResponsesOk, History.HistoryInv, Books.OutboxInv, PreparedOk;
    assert SharedOf(w.(outbox := o)) == SharedOf(w);
  }

  lemma EditorSameCreated(l: Ledger, pid: nat, io: Io, conflict: bool)
    ensures EditorStep(l, pid, io, conflict).created == l.created
  {
    hide Decide, Enabled, Next, Past;
  }

  lemma EditKeeps(w: World, a: Action)
    requires Inv(w) && (a.SubmitEdit? || a.StepEdit? || a.CrashEdit?)
    ensures Inv(Act(w, a))
  {
    hide Inv, EditorStep;
    assert History.HistoryInv(w.ledger) by { Parts(w); }
    match a
    case SubmitEdit(pid, edit) =>
      History.MoveKeeps(w.ledger, pid, edit, Loading);
      LedgerKeeps(w, MoveEditor(w.ledger, pid, edit, Loading));
    case StepEdit(pid, io, conflict) =>
      History.EditorStepKeeps(w.ledger, pid, io, conflict);
      EditorSameCreated(w.ledger, pid, io, conflict);
      LedgerKeeps(w, EditorStep(w.ledger, pid, io, conflict));
    case CrashEdit(pid) =>
      var any := ApproveCommand("o", "r", "u", 0, "e");
      History.MoveKeeps(w.ledger, pid, any, Loading);
      LedgerKeeps(w, FinishEditor(w.ledger, pid));
  }

  lemma Parts(w: World)
    requires Inv(w)
    ensures CreationInv(w) && History.HistoryInv(w.ledger) && Books.OutboxInv(w.outbox, w.ledger.created)
    ensures PreparedOk(w.claims.issued)
  {
    hide CreationInv, History.HistoryInv, Books.OutboxInv, PreparedOk;
  }

  lemma PublishKeeps(w: World, a: Action)
    requires Inv(w) && (a.BeginCycle? || a.StepPublish? || a.CrashPublish?)
    ensures Inv(Act(w, a))
  {
    hide Inv, PublisherStep, Books.OutboxInv;
    Parts(w);
    match a
    case BeginCycle(pid, candidates) =>
      if candidates != [] {
        Books.BeginKeeps(w.outbox, pid, candidates, w.ledger.created);
        OutboxKeeps(w, MovePublisher(w.outbox, pid, candidates, ClaimRead));
      }
    case StepPublish(pid, io, delivery, now) =>
      Books.PublisherStepKeeps(w.outbox, pid, io, delivery, now, w.ledger.created);
      OutboxKeeps(w, PublisherStep(w.outbox, pid, io, delivery, now));
    case CrashPublish(pid) =>
      Books.BeginKeeps(w.outbox, pid, [Candidate(("o", "e"), 0)], w.ledger.created);
      OutboxKeeps(w, EndCycle(w.outbox, pid));
  }

  /** Every action keeps the invariant. */
  lemma ActKeeps(w: World, a: Action)
    requires Inv(w)
    ensures Inv(Act(w, a))
  {
    match a
    case SubmitCreate(pid, cmd) =>
      if pid !in w.claims.creators && cmd.Fits() && Fresh(Prepare(cmd), w.claims.issued) { SubmitKeeps(w, pid, cmd); }
    case StepCreate(pid, io, resource, count) => StepCreateKeeps(w, pid, io, resource, count);
    case CrashCreate(pid) => CrashCreateKeeps(w, pid);
    case SubmitEdit(_, _) => EditKeeps(w, a);
    case StepEdit(_, _, _) => EditKeeps(w, a);
    case CrashEdit(_) => EditKeeps(w, a);
    case BeginCycle(_, _) => PublishKeeps(w, a);
    case StepPublish(_, _, _, _) => PublishKeeps(w, a);
    case CrashPublish(_) => PublishKeeps(w, a);
  }

  /** The invariant holds after every run. */
  lemma {:induction false} RunKeeps(actions: seq<Action>)
    ensures Inv(Run(actions))
    decreases |actions|
  {
    if actions == [] {
      InitialInv();
    } else {
      hide Inv, Act;
      RunKeeps(actions[..|actions| - 1]);
      ActKeeps(Run(actions[..|actions| - 1]), actions[|actions| - 1]);
    }
  }
}
