/**
 Capacity under concurrency: it is kept in every run whose queries answer truly and in which
 nothing overlapping becomes confirmed between a handler's check and its write.
 */
module ConcurrentCapacity {
  import opened Wrappers
  import opened Timestamp
  import opened Domain
  import opened Idempotency
  import opened Handlers
  import opened Collections
  import opened Schedule
  import opened World
  import opened SystemInvariant
  import CreationInvariant
  import Creating = CreationSteps
  import History = ReservationHistory

  /** The reservations of the collection, without their tokens. */
  function BookOf(l: Ledger): Book {
    map k | k in l.reservations :: l.reservations[k].doc
  }

  /** The units of each resource; they may have been fewer when a handler read them, never more. */
  type Units = Key -> nat

  // ----- True answers -----

  /** `reserved_unit_count` counts the reservations stored when it runs, and the cast keeps the count. */
  predicate TrueCount(l: Ledger, c: Command, count: int) {
    CountFits(BookOf(l), c) && count == ReservedUnits(BookOf(l), c.org, c.resource, c.interval)
  }

  /** The interval a transition leaves the reservation with. */
  function IntervalAfter(r: ReservationState, t: Transition): Interval {
    if Enabled(r, t) then Next(r, t).interval else r.interval
  }

  /** `has_conflict_excluding` sees the reservations stored when it runs. */
  predicate TrueConflict(l: Ledger, cmd: EditCommand, loaded: ReservationState, t: Transition, conflict: bool) {
    conflict == ConflictExcluding(BookOf(l), cmd.org, loaded.resource, IntervalAfter(loaded, t), cmd.id)
  }

  predicate TrueAnswers(w: World, a: Action, units: Units) {
    match a
    case StepCreate(pid, io, resource, count) =>
      (io.Works? && pid in w.claims.creators ==>
         var c := w.claims.creators[pid].req.cmd;
         match w.claims.creators[pid].pc
         case ReadingResource => resource.Some? ==> resource.value.totalUnits <= units((c.org, c.resource))
         case Counting(_) => TrueCount(w.ledger, c, count)
         case _ => true)
    case StepEdit(pid, io, conflict) =>
      (io.Works? && pid in w.ledger.editors && w.ledger.editors[pid].pc.CheckingConflict? ==>
         var e := w.ledger.editors[pid];
         TrueConflict(w.ledger, e.cmd, e.pc.loaded, e.pc.transition, conflict))
    case _ => true
  }

  // ----- Between a check and its write -----

  /** The transitions that were checked for conflicts. */
  predicate Checked(t: Transition) { t.Approve? || t.Extend? }

  predicate CreatorOpen(w: World, p: nat) {
    p in w.claims.creators && w.claims.creators[p].pc == Persisting(false)
  }

  predicate EditorOpen(w: World, p: nat) {
    p in w.ledger.editors && w.ledger.editors[p].pc.Writing? && Checked(w.ledger.editors[p].pc.transition)
  }

  /** What blocks the interval a creation handler is about to confirm. */
  function BlocksCreator(l: Ledger, c: Creator): set<Key> {
    ConflictingKeys(BookOf(l), c.req.cmd.org, c.req.cmd.resource, c.req.cmd.interval)
  }

  /** What else blocks the interval an edit handler is about to confirm. */
  function BlocksEditor(l: Ledger, e: Editor): set<Key>
    requires e.pc.Writing?
  {
    ConflictingKeys(BookOf(l), e.cmd.org, e.pc.loaded.resource, IntervalAfter(e.pc.loaded, e.pc.transition))
    - {(e.cmd.org, e.cmd.id)}
  }

  /** Nothing that overlaps becomes blocking for a handler that stays between its check and its write. */
  ghost predicate Undisturbed(w: World, w': World) {
    && (forall p :: CreatorOpen(w, p) && CreatorOpen(w', p) ==>
          BlocksCreator(w'.ledger, w.claims.creators[p]) <= BlocksCreator(w.ledger, w.claims.creators[p]))
    && (forall p :: EditorOpen(w, p) && EditorOpen(w', p) ==>
          BlocksEditor(w'.ledger, w.ledger.editors[p]) <= BlocksEditor(w.ledger, w.ledger.editors[p]))
  }

  // ----- The invariant -----

  ghost predicate Within(book: Book, units: Units) {
    forall org: Id, resource: Id, t: int {:trigger Depth(book, org, resource, t)} ::
      Depth(book, org, resource, t) <= units((org, resource))
  }

  /** A handler that has counted has room; before that it knows the units. */
  predicate CreatorRoom(c: Creator, l: Ledger, units: Units) {
    match c.pc
    case Counting(resource) => resource.totalUnits <= units((c.req.cmd.org, c.req.cmd.resource))
    case Persisting(pending) => pending || |BlocksCreator(l, c)| < units((c.req.cmd.org, c.req.cmd.resource))
    case _ => true
  }

  predicate EditorRoom(e: Editor, l: Ledger) {
    match e.pc
    case Loading => true
    case CheckingConflict(loaded, _, _) => (loaded.org, loaded.id) == (e.cmd.org, e.cmd.id)
    case Writing(loaded, _, t) =>
      (loaded.org, loaded.id) == (e.cmd.org, e.cmd.id) && (Checked(t) ==> BlocksEditor(l, e) == {})
  }

  ghost predicate Room(w: World, units: Units) {
    && Within(BookOf(w.ledger), units)
    && (forall p :: p in w.claims.creators ==> CreatorRoom(w.claims.creators[p], w.ledger, units))
    && (forall p :: p in w.ledger.editors ==> EditorRoom(w.ledger.editors[p], w.ledger))
  }

  // ----- One reservation changes -----

  lemma ChangeWithin(book: Book, k: Key, r: ReservationState, units: Units)
    requires Within(book, units)
    requires forall t: int {:trigger r.interval.Covers(t)} :: BlocksSchedule(r.status) && r.interval.Covers(t) ==>
      |OccupyingKeys(book, r.org, r.resource, t) - {k}| < units((r.org, r.resource))
    ensures Within(book[k := r], units)
  {
    var book' := book[k := r];
    forall org: Id, resource: Id, t: int {:trigger Depth(book', org, resource, t)}
      ensures Depth(book', org, resource, t) <= units((org, resource))
    {
      hide OccupyingKeys;
      DepthChange(book, k, r, org, resource, t);
      assert Depth(book, org, resource, t) <= units((org, resource));
      if Occupies(r, org, resource, t) { assert r.interval.Covers(t); }
    }
  }

  lemma CreationWithin(l: Ledger, c: Creator, r: ReservationState, pending: bool, units: Units)
    requires Within(BookOf(l), units) && r == Created(c.req.cmd, pending)
    requires pending || |BlocksCreator(l, c)| < units((c.req.cmd.org, c.req.cmd.resource))
    ensures Within(BookOf(l)[KeyOfReservation(c.req) := r], units)
  {
    var book, k := BookOf(l), KeyOfReservation(c.req);
    CreatedShape(c.req.cmd, pending);
    hide Within, Created, OccupyingKeys, ConflictingKeys, BookOf;
    forall t: int {:trigger r.interval.Covers(t)} | BlocksSchedule(r.status) && r.interval.Covers(t)
      ensures |OccupyingKeys(book, r.org, r.resource, t) - {k}| < units((r.org, r.resource))
    {
      CoveringConflicts(book, r.org, r.resource, r.interval, t);
      Without(OccupyingKeys(book, r.org, r.resource, t), k);
    }
    ChangeWithin(book, k, r, units);
  }

  lemma CreatedShape(c: Command, pending: bool)
    ensures var r := Created(c, pending);
      && r.org == c.org && r.resource == c.resource && r.interval == c.interval && (BlocksSchedule(r.status) <==> !pending)
  {
  }

  /** A confirmed state written where nothing else blocks its interval. */
  lemma EditWithin(book: Book, k: Key, r: ReservationState, units: Units)
    requires Within(book, units) && units((r.org, r.resource)) >= 1
    requires BlocksSchedule(r.status) ==> ConflictingKeys(book, r.org, r.resource, r.interval) <= {k}
    ensures Within(book[k := r], units)
  {
    hide Within, OccupyingKeys, ConflictingKeys;
    forall t: int {:trigger r.interval.Covers(t)} | BlocksSchedule(r.status) && r.interval.Covers(t)
      ensures |OccupyingKeys(book, r.org, r.resource, t) - {k}| < units((r.org, r.resource))
    {
      CoveringConflicts(book, r.org, r.resource, r.interval, t);
      assert OccupyingKeys(book, r.org, r.resource, t) - {k} == {};
    }
    ChangeWithin(book, k, r, units);
  }

  // ----- Handlers that do not step -----

  lemma OtherCreator(w: World, w': World, p: nat, units: Units)
    requires p in w.claims.creators && CreatorRoom(w.claims.creators[p], w.ledger, units)
    requires p in w'.claims.creators && w'.claims.creators[p] == w.claims.creators[p]
    requires Undisturbed(w, w')
    ensures CreatorRoom(w'.claims.creators[p], w'.ledger, units)
  {
    hide BlocksCreator, BlocksEditor;
    var c := w.claims.creators[p];
    if c.pc == Persisting(false) {
      assert CreatorOpen(w, p) && CreatorOpen(w', p);
      SubsetSize(BlocksCreator(w'.ledger, c), BlocksCreator(w.ledger, c));
    }
  }

  lemma OtherEditor(w: World, w': World, p: nat)
    requires p in w.ledger.editors && EditorRoom(w.ledger.editors[p], w.ledger)
    requires p in w'.ledger.editors && w'.ledger.editors[p] == w.ledger.editors[p]
    requires Undisturbed(w, w')
    ensures EditorRoom(w'.ledger.editors[p], w'.ledger)
  {
    hide BlocksCreator, BlocksEditor;
    var e := w.ledger.editors[p];
    if e.pc.Writing? && Checked(e.pc.transition) {
      assert EditorOpen(w, p) && EditorOpen(w', p);
    }
  }

  /** Every handler but `pid` is as before, and `pid`, if it goes on, has room. */
  predicate CreatorMoves(w: World, w': World, pid: nat, units: Units) {
    var before, after := w.claims.creators, w'.claims.creators;
    || after == before - {pid}
    || (pid in after && after == before[pid := after[pid]] && CreatorRoom(after[pid], w'.ledger, units))
  }

  lemma CreatorRoomKept(w: World, w': World, pid: nat, units: Units)
    requires Room(w, units) && Undisturbed(w, w') && CreatorMoves(w, w', pid, units)
    requires w'.ledger.editors == w.ledger.editors && Within(BookOf(w'.ledger), units)
    ensures Room(w', units)
  {
    hide Undisturbed, CreatorRoom, EditorRoom, Within, BookOf;
    forall p | p in w'.claims.creators
      ensures CreatorRoom(w'.claims.creators[p], w'.ledger, units)
    {
      if p != pid { OtherCreator(w, w', p, units); }
    }
    forall p | p in w'.ledger.editors
      ensures EditorRoom(w'.ledger.editors[p], w'.ledger)
    {
      OtherEditor(w, w', p);
    }
  }

  predicate EditorMoves(w: World, w': World, pid: nat) {
    var before, after := w.ledger.editors, w'.ledger.editors;
    || after == before - {pid}
    || (pid in after && after == before[pid := after[pid]] && EditorRoom(after[pid], w'.ledger))
  }

  lemma EditorRoomKept(w: World, w': World, pid: nat, units: Units)
    requires Room(w, units) && Undisturbed(w, w') && EditorMoves(w, w', pid)
    requires w'.claims == w.claims && Within(BookOf(w'.ledger), units)
    ensures Room(w', units)
  {
    hide Undisturbed, CreatorRoom, EditorRoom, Within, BookOf;
    forall p | p in w'.claims.creators
      ensures CreatorRoom(w'.claims.creators[p], w'.ledger, units)
    {
      OtherCreator(w, w', p, units);
    }
    forall p | p in w'.ledger.editors
      ensures EditorRoom(w'.ledger.editors[p], w'.ledger)
    {
      if p != pid { OtherEditor(w, w', p); }
    }
  }

  // ----- Steps of creation handlers -----

  lemma CompletionMoves(w: World, pid: nat, io: Io, resource: Option<Resource>, count: int, units: Units)
    requires pid in w.claims.creators
    requires var pc := w.claims.creators[pid].pc; pc.CompletionRead? || pc.CompletionWrite? || pc.CompletionReconcile?
    ensures CreatorMoves(w, CreatorStep(w, pid, io, resource, count), pid, units)
  {
    hide ValidateCompletion, CompletedRecord, CompletionKey, BlocksCreator;
  }

  lemma OtherMoves(w: World, pid: nat, io: Io, resource: Option<Resource>, count: int, units: Units)
    requires pid in w.claims.creators
    requires var pc := w.claims.creators[pid].pc;
      && !pc.ReadingResource? && !pc.Counting? && !pc.Persisting?
      && !pc.CompletionRead? && !pc.CompletionWrite? && !pc.CompletionReconcile?
    ensures CreatorMoves(w, CreatorStep(w, pid, io, resource, count), pid, units)
  {
    hide StepReadResource, StepCount, StepPersist, StepCompletionRead, StepCompletionWrite, StepReconcile, IsCreationEvent,
         MatchesOriginal, ExpectedEventIds, SnapshotFor, SuccessResult, ProcessingRecord, Created, Classify, Replay,
         BlocksCreator;
  }

  lemma ResourceMoves(w: World, pid: nat, io: Io, resource: Option<Resource>, count: int, units: Units)
    requires pid in w.claims.creators && w.claims.creators[pid].pc.ReadingResource?
    requires TrueAnswers(w, StepCreate(pid, io, resource, count), units)
    ensures CreatorMoves(w, CreatorStep(w, pid, io, resource, count), pid, units)
  {
    hide RejectResource, SnapshotFor, BlocksCreator;
  }

  lemma CountMoves(w: World, pid: nat, io: Io, resource: Option<Resource>, count: int, units: Units)
    requires pid in w.claims.creators && w.claims.creators[pid].pc.Counting?
    requires CreatorRoom(w.claims.creators[pid], w.ledger, units)
    requires TrueAnswers(w, StepCreate(pid, io, resource, count), units)
    ensures CreatorMoves(w, CreatorStep(w, pid, io, resource, count), pid, units)
  {
    var c := w.claims.creators[pid];
    hide SnapshotFor, ConflictingKeys, BookOf, FullyReserved, ToInt32;
    if io.Works? && !FullyReserved(count, c.pc.resource) {
      SmallCount(|BlocksCreator(w.ledger, c)|);
      NotFullyReserved(|BlocksCreator(w.ledger, c)|, c.pc.resource);
    }
  }

  lemma BookInserted(l: Ledger, creation: Creation)
    ensures BookOf(InsertReservation(l, creation))
            == BookOf(l)[KeyOfReservation(creation.req) := Created(creation.req.cmd, creation.pending)]
    ensures InsertReservation(l, creation).editors == l.editors
  {
    hide Created;
  }

  lemma PersistMoves(w: World, pid: nat, req: Request, pending: bool, io: Io, units: Units)
    requires Creating.Runs(w, pid, req, Persisting(pending)) && Within(BookOf(w.ledger), units)
    requires CreatorRoom(w.claims.creators[pid], w.ledger, units)
    ensures var w' := StepPersist(w, pid, req, pending, io);
      CreatorMoves(w, w', pid, units) && Within(BookOf(w'.ledger), units) && w'.ledger.editors == w.ledger.editors
  {
    hide Within, BookOf, InsertReservation, InsertEvents, KeysOfEvents, Created, ConflictingKeys;
    var creation := Creation(req, pending);
    BookInserted(w.ledger, creation);
    CreationWithin(w.ledger, w.claims.creators[pid], Created(req.cmd, pending), pending, units);
  }

  lemma CreateStepRoom(w: World, pid: nat, io: Io, resource: Option<Resource>, count: int, units: Units)
    requires Room(w, units) && TrueAnswers(w, StepCreate(pid, io, resource, count), units)
    requires Undisturbed(w, CreatorStep(w, pid, io, resource, count))
    ensures Room(CreatorStep(w, pid, io, resource, count), units)
  {
    hide Within, Undisturbed, TrueAnswers, CreatorRoom, EditorRoom, BookOf, CreatorMoves, StepPersist;
    if pid in w.claims.creators {
      var pc, w' := w.claims.creators[pid].pc, CreatorStep(w, pid, io, resource, count);
      if pc.Persisting? {
        PersistMoves(w, pid, w.claims.creators[pid].req, pc.pending, io, units);
      } else {
        hide CreatorStep;
        CreatorFrame(w, pid, io, resource, count);
        if pc.ReadingResource? {
          ResourceMoves(w, pid, io, resource, count, units);
        } else if pc.Counting? {
          CountMoves(w, pid, io, resource, count, units);
        } else if pc.CompletionRead? || pc.CompletionWrite? || pc.CompletionReconcile? {
          CompletionMoves(w, pid, io, resource, count, units);
        } else {
          OtherMoves(w, pid, io, resource, count, units);
        }
      }
      hide CreatorStep;
      CreatorRoomKept(w, w', pid, units);
    }
  }

  // ----- Steps of edit handlers -----

  lemma ConfirmingIsChecked(cmd: EditCommand, r: ReservationState, t: Transition)
    requires DecidedTransition(Decide(cmd, r)) == Some(t) && Enabled(r, t)
    ensures BlocksSchedule(Next(r, t).status) ==> Checked(t)
    ensures Decide(cmd, r).Apply? ==> !Checked(t)
  {
  }

  lemma LoadMoves(w: World, pid: nat, io: Io, conflict: bool)
    requires pid in w.ledger.editors && w.ledger.editors[pid].pc.Loading?
    ensures var l := EditorStep(w.ledger, pid, io, conflict);
      EditorMoves(w, w.(ledger := l), pid) && l.reservations == w.ledger.reservations
  {
    var cmd := w.ledger.editors[pid].cmd;
    var key: ReservationKey := (cmd.org, cmd.id);
    if key in w.ledger.reservations {
      var doc := w.ledger.reservations[key].doc;
      DecisionsAreEnabled(cmd, doc);
      if DecidedTransition(Decide(cmd, doc)).Some? {
        ConfirmingIsChecked(cmd, doc, DecidedTransition(Decide(cmd, doc)).value);
      }
    }
    hide Decide, Enabled, Next, BlocksEditor, Checked;
  }

  /** A true answer without conflict leaves nothing else that blocks the interval. */
  lemma NoConflictNoBlock(l: Ledger, e: Editor, t: Transition)
    requires History.HistoryInv(l) && e.pc.Writing? && e.pc.transition == t
    requires TrueConflict(l, e.cmd, e.pc.loaded, t, false)
    ensures BlocksEditor(l, e) == {}
  {
    hide History.HistoryInv, IntervalAfter, Conflicting;
    forall k | k in l.reservations
      ensures KeyOf(l.reservations[k].doc) == k
    {
      History.StoredUnderKey(l, k);
    }
    var interval := IntervalAfter(e.pc.loaded, t);
    forall k | k in BookOf(l) && k != (e.cmd.org, e.cmd.id)
      ensures !Conflicting(BookOf(l)[k], e.cmd.org, e.pc.loaded.resource, interval)
    {
      ConflictingOrg(BookOf(l)[k], e.cmd.org, e.pc.loaded.resource, interval);
    }
  }

  lemma ConflictingOrg(r: ReservationState, org: Id, resource: Id, interval: Interval)
    ensures Conflicting(r, org, resource, interval) ==> r.org == org
  {
  }

  lemma CheckMoves(w: World, pid: nat, io: Io, conflict: bool, units: Units)
    requires History.HistoryInv(w.ledger) && pid in w.ledger.editors && w.ledger.editors[pid].pc.CheckingConflict?
    requires EditorRoom(w.ledger.editors[pid], w.ledger) && TrueAnswers(w, StepEdit(pid, io, conflict), units)
    ensures var l := EditorStep(w.ledger, pid, io, conflict);
      EditorMoves(w, w.(ledger := l), pid) && l.reservations == w.ledger.reservations
  {
    hide History.HistoryInv, TrueConflict, BlocksEditor, Checked;
    var e := w.ledger.editors[pid];
    if io.Works? && !conflict {
      var next := Editor(e.cmd, Writing(e.pc.loaded, e.pc.token, e.pc.transition));
      NoConflictNoBlock(w.ledger, next, e.pc.transition);
      SameBlocks(w.ledger, EditorStep(w.ledger, pid, io, conflict), next);
    }
  }

  lemma SameBlocks(l: Ledger, l': Ledger, e: Editor)
    requires l'.reservations == l.reservations && e.pc.Writing?
    ensures BlocksEditor(l', e) == BlocksEditor(l, e)
  {
    hide ConflictingKeys, IntervalAfter;
  }

  lemma BookReplaced(l: Ledger, key: ReservationKey, r: ReservationState)
    ensures BookOf(ReplaceReservation(l, key, r)) == BookOf(l)[key := r]
  {
  }

  lemma WriteWithin(l: Ledger, e: Editor, units: Units)
    requires History.HistoryInv(l) && Within(BookOf(l), units) && forall k :: units(k) >= 1
    requires e.pc.Writing? && EditorRoom(e, l) && History.EditorOk(e, l) && Enabled(e.pc.loaded, e.pc.transition)
    ensures Within(BookOf(l)[(e.cmd.org, e.cmd.id) := Next(e.pc.loaded, e.pc.transition)], units)
  {
    var loaded, t := e.pc.loaded, e.pc.transition;
    ConfirmingIsChecked(e.cmd, loaded, t);
    NextIdentity(loaded, t);
    hide History.HistoryInv, Within, Decide, Enabled, Next, Checked;
    EditWithin(BookOf(l), (e.cmd.org, e.cmd.id), Next(loaded, t), units);
  }

  lemma WriteMoves(w: World, pid: nat, io: Io, conflict: bool, units: Units)
    requires History.HistoryInv(w.ledger) && Within(BookOf(w.ledger), units) && forall k :: units(k) >= 1
    requires pid in w.ledger.editors && w.ledger.editors[pid].pc.Writing? && EditorRoom(w.ledger.editors[pid], w.ledger)
    requires History.EditorOk(w.ledger.editors[pid], w.ledger)
    ensures var l := EditorStep(w.ledger, pid, io, conflict);
      EditorMoves(w, w.(ledger := l), pid) && Within(BookOf(l), units)
  {
    hide History.HistoryInv, History.EditorOk, EditorRoom, Within, BookOf, Enabled, Next, Past;
    var e := w.ledger.editors[pid];
    var l' := FinishEditor(w.ledger, pid);
    SameBook(w.ledger, l');
    if Enabled(e.pc.loaded, e.pc.transition) {
      WriteWithin(w.ledger, e, units);
      var r := Next(e.pc.loaded, e.pc.transition);
      BookReplaced(l', (e.cmd.org, e.cmd.id), r);
      SameBook(ReplaceReservation(l', (e.cmd.org, e.cmd.id), r), EditorStep(w.ledger, pid, io, conflict));
    }
  }

  lemma SameBook(l: Ledger, l': Ledger)
    ensures l'.reservations == l.reservations ==> BookOf(l') == BookOf(l)
  {
  }

  lemma EditStepRoom(w: World, pid: nat, io: Io, conflict: bool, units: Units)
    requires History.HistoryInv(w.ledger) && Room(w, units) && forall k :: units(k) >= 1
    requires TrueAnswers(w, StepEdit(pid, io, conflict), units)
    requires Undisturbed(w, w.(ledger := EditorStep(w.ledger, pid, io, conflict)))
    ensures Room(w.(ledger := EditorStep(w.ledger, pid, io, conflict)), units)
  {
    hide Within, Undisturbed, TrueAnswers, CreatorRoom, EditorRoom, BookOf, EditorMoves, EditorStep,
         History.EditorOk;
    if pid in w.ledger.editors {
      var l := EditorStep(w.ledger, pid, io, conflict);
      EditorKnown(w.ledger, pid);
      match w.ledger.editors[pid].pc {
        case Loading =>
          LoadMoves(w, pid, io, conflict);
          SameBook(w.ledger, l);
        case CheckingConflict(_, _, _) =>
          CheckMoves(w, pid, io, conflict, units);
          SameBook(w.ledger, l);
        case Writing(_, _, _) => WriteMoves(w, pid, io, conflict, units);
      }
      EditorRoomKept(w, w.(ledger := l), pid, units);
    } else {
      NoEditor(w, pid, io, conflict);
    }
  }

  lemma NoEditor(w: World, pid: nat, io: Io, conflict: bool)
    requires pid !in w.ledger.editors
    ensures w.(ledger := EditorStep(w.ledger, pid, io, conflict)) == w
  {
  }

  lemma EditorKnown(l: Ledger, pid: nat)
    requires History.HistoryInv(l) && pid in l.editors
    ensures History.EditorOk(l.editors[pid], l)
  {
    hide History.LedgerOk, History.EditorOk, History.AcknowledgementsOk;
  }

  // ----- Runs -----

  lemma StartsRoom(w: World, a: Action, units: Units)
    requires Room(w, units) && (a.SubmitCreate? || a.CrashCreate? || a.SubmitEdit? || a.CrashEdit?)
    ensures Room(Act(w, a), units)
  {
    hide Within, Fresh, Prepare, ConflictingKeys, IntervalAfter, BookOf;
    SameBook(w.ledger, Act(w, a).ledger);
  }

  /** One action keeps the room of every handler, if its queries answer truly and it disturbs nobody. */
  lemma ActRoom(w: World, a: Action, units: Units)
    requires Inv(w) && Room(w, units) && forall k :: units(k) >= 1
    requires TrueAnswers(w, a, units) && Undisturbed(w, Act(w, a))
    ensures Room(Act(w, a), units)
  {
    hide Inv, Undisturbed, TrueAnswers, CreatorStep, EditorStep, PublisherStep, History.HistoryInv, Within, CreatorRoom,
         EditorRoom;
    match a
    case StepCreate(pid, io, resource, count) => CreateStepRoom(w, pid, io, resource, count, units);
    case StepEdit(pid, io, conflict) =>
      Parts(w);
      EditStepRoom(w, pid, io, conflict, units);
    case SubmitCreate(_, _) => StartsRoom(w, a, units);
    case CrashCreate(_) => StartsRoom(w, a, units);
    case SubmitEdit(_, _) => StartsRoom(w, a, units);
    case CrashEdit(_) => StartsRoom(w, a, units);
    case BeginCycle(_, _) =>
    case StepPublish(_, _, _, _) =>
    case CrashPublish(_) =>
  }

  /** Every query of the run answers truly. */
  ghost predicate Truthful(actions: seq<Action>, units: Units) {
    forall i :: 0 <= i < |actions| ==> TrueAnswers(Run(actions[..i]), actions[i], units)
  }

  /** No action of the run disturbs a handler between its check and its write. */
  ghost predicate NoneDisturbed(actions: seq<Action>) {
    forall i :: 0 <= i < |actions| ==> Undisturbed(Run(actions[..i]), Act(Run(actions[..i]), actions[i]))
  }

  lemma Shorter(actions: seq<Action>, units: Units)
    requires actions != [] && Truthful(actions, units) && NoneDisturbed(actions)
    ensures var init := actions[..|actions| - 1]; Truthful(init, units) && NoneDisturbed(init)
  {
    hide TrueAnswers, Undisturbed, Run, Act;
    var init := actions[..|actions| - 1];
    assert forall i :: 0 <= i < |init| ==> init[..i] == actions[..i] && init[i] == actions[i];
  }

  lemma {:induction false} RunRoom(actions: seq<Action>, units: Units)
    requires (forall k :: units(k) >= 1) && Truthful(actions, units) && NoneDisturbed(actions)
    ensures Room(Run(actions), units)
    decreases |actions|
  {
    if actions == [] {
      assert BookOf(Initial.ledger) == map[];
      assert forall org, resource, t :: OccupyingKeys(BookOf(Initial.ledger), org, resource, t) == {};
    } else {
      hide Inv, Act, Room, TrueAnswers, Undisturbed;
      var n := |actions| - 1;
      Shorter(actions, units);
      RunRoom(actions[..n], units);
      RunKeeps(actions[..n]);
      assert TrueAnswers(Run(actions[..n]), actions[n], units);
      ActRoom(Run(actions[..n]), actions[n], units);
    }
  }

  /**
   In every concurrent run whose queries answer truly and in which nothing overlapping becomes
   confirmed between a handler's check and its write, no instant has more confirmed reservations
   of a resource than units.
   */
  lemma ConcurrentCapacityHolds(actions: seq<Action>, units: Units, org: Id, resource: Id, t: int)
    requires (forall k :: units(k) >= 1) && Truthful(actions, units) && NoneDisturbed(actions)
    ensures Depth(BookOf(Run(actions).ledger), org, resource, t) <= units((org, resource))
  {
    hide Run, Truthful, NoneDisturbed, CreatorRoom, EditorRoom, Depth, BookOf;
    RunRoom(actions, units);
  }
}
