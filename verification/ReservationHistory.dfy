/**
 No lost updates: every state a reservation ever had follows from the one before it by one
 decision of one handler, whatever else runs, fails or crashes.
 */
module ReservationHistory {
  import opened Wrappers
  import opened Timestamp
  import opened Domain
  import opened Lifecycle
  import opened Idempotency
  import opened Handlers
  import opened World

  function StartOf(c: Creation): ReservationState { Created(c.req.cmd, c.pending) }

  predicate Edits(c: EditCommand, key: ReservationKey, before: ReservationState, after: ReservationState) {
    && (c.org, c.id) == key
    && var decided := DecidedTransition(Decide(c, before));
       decided.Some? && Enabled(before, decided.value) && after == Next(before, decided.value)
  }

  /** Some command addressed to the reservation, decided on `before`, leads to `after`. */
  ghost predicate OneEdit(key: ReservationKey, before: ReservationState, after: ReservationState) {
    exists c: EditCommand :: Edits(c, key, before, after)
  }

  ghost predicate Chain(key: ReservationKey, h: seq<ReservationState>) {
    forall i :: 0 <= i < |h| - 1 ==> OneEdit(key, h[i], h[i + 1])
  }

  ghost predicate Follows(h: seq<ReservationState>, before: ReservationState, after: ReservationState) {
    exists i :: 0 <= i < |h| - 1 && h[i] == before && h[i + 1] == after
  }

  // ----- The invariant -----

  /** The history of one reservation runs from its creation to the stored document. */
  ghost predicate KeyOk(l: Ledger, key: ReservationKey)
    requires key in l.created
  {
    && key in l.reservations && key in l.history && key == KeyOfReservation(l.created[key].req)
    && l.reservations[key].cas < l.nextCas
    && var h := l.history[key];
       h != [] && h[0] == StartOf(l.created[key]) && h[|h| - 1] == l.reservations[key].doc && Chain(key, h)
  }

  ghost predicate LedgerOk(l: Ledger) {
    && l.reservations.Keys == l.created.Keys == l.history.Keys
    && (forall key :: key in l.created ==> KeyOk(l, key))
  }

  /** A handler that still holds the current token has seen the current document. */
  predicate HoldsOk(l: Ledger, cmd: EditCommand, loaded: ReservationState, token: nat, t: Transition) {
    var key: ReservationKey := (cmd.org, cmd.id);
    && DecidedTransition(Decide(cmd, loaded)) == Some(t)
    && key in l.reservations && token < l.nextCas
    && (l.reservations[key].cas == token ==> l.reservations[key].doc == loaded)
  }

  predicate EditorOk(e: Editor, l: Ledger) {
    match e.pc
    case Loading => true
    case CheckingConflict(loaded, token, t) => HoldsOk(l, e.cmd, loaded, token, t)
    case Writing(loaded, token, t) => HoldsOk(l, e.cmd, loaded, token, t)
  }

  ghost predicate EditorsOk(editors: map<nat, Editor>, l: Ledger) {
    forall p :: p in editors ==> EditorOk(editors[p], l)
  }

  ghost predicate AcknowledgedOk(a: Acknowledgement, l: Ledger) {
    a.key in l.history && Follows(l.history[a.key], a.before, a.after)
  }

  ghost predicate AcknowledgementsOk(acknowledged: set<Acknowledgement>, l: Ledger) {
    forall a :: a in acknowledged ==> AcknowledgedOk(a, l)
  }

  ghost predicate HistoryInv(l: Ledger) {
    LedgerOk(l) && EditorsOk(l.editors, l) && AcknowledgementsOk(l.acknowledged, l)
  }

  // ----- The kinds of change -----

  predicate Inserts(l: Ledger, l': Ledger, creation: Creation) {
    var key, start := KeyOfReservation(creation.req), StartOf(creation);
    && key !in l.reservations && l'.nextCas == l.nextCas + 1
    && l'.reservations == l.reservations[key := Stored(start, l.nextCas)]
    && l'.created == l.created[key := creation] && l'.history == l.history[key := [start]]
  }

  predicate Replaces(l: Ledger, l': Ledger, cmd: EditCommand, after: ReservationState) {
    var key: ReservationKey := (cmd.org, cmd.id);
    && key in l.reservations && Edits(cmd, key, l.reservations[key].doc, after) && l'.nextCas == l.nextCas + 1
    && l'.reservations == l.reservations[key := Stored(after, l.nextCas)]
    && l'.created == l.created && l'.history == l.history[key := Past(l.history, key) + [after]]
  }

  datatype LedgerChange = Insert(creation: Creation) | Replace(cmd: EditCommand, after: ReservationState) | Untouched

  predicate LedgerChanges(l: Ledger, l': Ledger, change: LedgerChange) {
    match change
    case Insert(creation) => Inserts(l, l', creation)
    case Replace(cmd, after) => Replaces(l, l', cmd, after)
    case Untouched =>
      && l'.reservations == l.reservations && l'.created == l.created && l'.history == l.history
      && l'.nextCas == l.nextCas
  }

  lemma ChainGrows(key: ReservationKey, h: seq<ReservationState>, after: ReservationState)
    requires h != [] && Chain(key, h) && OneEdit(key, h[|h| - 1], after)
    ensures Chain(key, h + [after])
  {
    var grown := h + [after];
    forall i | 0 <= i < |grown| - 1
      ensures OneEdit(key, grown[i], grown[i + 1])
    {
      if i < |h| - 1 {
        assert grown[i] == h[i] && grown[i + 1] == h[i + 1];
      }
    }
  }

  lemma GrownKeyOk(l: Ledger, l': Ledger, cmd: EditCommand, after: ReservationState)
    requires var key: ReservationKey := (cmd.org, cmd.id); key in l.created && KeyOk(l, key) && Replaces(l, l', cmd, after)
    ensures KeyOk(l', (cmd.org, cmd.id))
  {
    hide Chain, Edits, StartOf;
    var key: ReservationKey := (cmd.org, cmd.id);
    var h := l.history[key];
    assert OneEdit(key, h[|h| - 1], after);
    ChainGrows(key, h, after);
  }

  lemma ReplacedKeyOk(l: Ledger, l': Ledger, cmd: EditCommand, after: ReservationState)
    requires LedgerOk(l) && Replaces(l, l', cmd, after)
    ensures var key: ReservationKey := (cmd.org, cmd.id); key in l'.created && KeyOk(l', key)
  {
    hide KeyOk, Edits;
    assert KeyOk(l, (cmd.org, cmd.id));
    GrownKeyOk(l, l', cmd, after);
  }

  lemma OtherKeyOk(l: Ledger, l': Ledger, key: ReservationKey)
    requires key in l.created && KeyOk(l, key) && l.nextCas <= l'.nextCas
    requires key in l'.created && l'.created[key] == l.created[key]
    requires key in l'.reservations && l'.reservations[key] == l.reservations[key]
    requires key in l'.history && l'.history[key] == l.history[key]
    ensures KeyOk(l', key)
  {
    hide Chain, Created;
  }

  lemma InsertSurvives(l: Ledger, l': Ledger, creation: Creation)
    requires LedgerOk(l) && Inserts(l, l', creation)
    ensures LedgerOk(l')
  {
    hide KeyOk, Created;
    forall key | key in l'.created
      ensures KeyOk(l', key)
    {
      if key in l.created { OtherKeyOk(l, l', key); } else { NewKeyOk(l', creation); }
    }
  }

  lemma NewKeyOk(l: Ledger, creation: Creation)
    requires var key, start := KeyOfReservation(creation.req), StartOf(creation);
      && key in l.created && l.created[key] == creation && key in l.history && l.history[key] == [start]
      && key in l.reservations && l.reservations[key].doc == start && l.reservations[key].cas < l.nextCas
    ensures KeyOk(l, KeyOfReservation(creation.req))
  {
    hide Created;
  }

  lemma ReplaceSurvives(l: Ledger, l': Ledger, cmd: EditCommand, after: ReservationState)
    requires LedgerOk(l) && Replaces(l, l', cmd, after)
    ensures LedgerOk(l')
  {
    hide KeyOk, Edits;
    ReplacedKeyOk(l, l', cmd, after);
    forall key | key in l'.created
      ensures KeyOk(l', key)
    {
      if key != (cmd.org, cmd.id) { OtherKeyOk(l, l', key); }
    }
  }

  lemma LedgerSurvives(l: Ledger, l': Ledger, change: LedgerChange)
    requires LedgerOk(l) && LedgerChanges(l, l', change)
    ensures LedgerOk(l')
  {
    hide KeyOk, Inserts, Replaces;
    match change
    case Insert(creation) => InsertSurvives(l, l', creation);
    case Replace(cmd, after) => ReplaceSurvives(l, l', cmd, after);
    case Untouched => forall key | key in l'.created ensures KeyOk(l', key) { OtherKeyOk(l, l', key); }
  }

  lemma EditorSurvives(l: Ledger, l': Ledger, change: LedgerChange, e: Editor)
    requires LedgerOk(l) && LedgerChanges(l, l', change) && EditorOk(e, l)
    ensures EditorOk(e, l')
  {
    hide Decide, Edits, Created, KeyOk, StartOf, Past;
  }

  lemma AcknowledgementSurvives(l: Ledger, l': Ledger, change: LedgerChange, a: Acknowledgement)
    requires LedgerOk(l) && LedgerChanges(l, l', change) && AcknowledgedOk(a, l)
    ensures AcknowledgedOk(a, l')
  {
    hide Edits, KeyOk, Created;
    var h, h' := l.history[a.key], l'.history[a.key];
    assert h <= h';
    var i :| 0 <= i < |h| - 1 && h[i] == a.before && h[i + 1] == a.after;
    assert h'[i] == a.before && h'[i + 1] == a.after;
  }

  /** A change of the collection keeps what is known of it. */
  lemma ChangeKeeps(l: Ledger, l': Ledger, change: LedgerChange)
    requires HistoryInv(l) && LedgerChanges(l, l', change)
    ensures LedgerOk(l') && EditorsOk(l.editors, l') && AcknowledgementsOk(l.acknowledged, l')
  {
    hide LedgerOk, LedgerChanges, EditorOk, AcknowledgedOk;
    LedgerSurvives(l, l', change);
    forall p | p in l.editors
      ensures EditorOk(l.editors[p], l')
    {
      EditorSurvives(l, l', change, l.editors[p]);
    }
    forall a | a in l.acknowledged
      ensures AcknowledgedOk(a, l')
    {
      AcknowledgementSurvives(l, l', change, a);
    }
  }

  // ----- Every action keeps the invariant -----

  lemma InsertKeeps(l: Ledger, creation: Creation)
    requires HistoryInv(l) && KeyOfReservation(creation.req) !in l.reservations
    ensures HistoryInv(InsertReservation(l, creation))
  {
    hide LedgerOk, EditorOk, AcknowledgedOk, Created;
    ChangeKeeps(l, InsertReservation(l, creation), Insert(creation));
  }

  lemma MoveKeeps(l: Ledger, pid: nat, cmd: EditCommand, pc: EditPc)
    requires HistoryInv(l) && EditorOk(Editor(cmd, pc), l)
    ensures HistoryInv(MoveEditor(l, pid, cmd, pc)) && HistoryInv(FinishEditor(l, pid))
  {
    hide Decide, LedgerOk, AcknowledgedOk, Past;
    var l', l'' := MoveEditor(l, pid, cmd, pc), FinishEditor(l, pid);
    ChangeKeeps(l, l', Untouched);
    ChangeKeeps(l, l'', Untouched);
    assert forall p :: p in l'.editors && p != pid ==> l'.editors[p] == l.editors[p];
  }

  lemma LoadKeeps(l: Ledger, pid: nat, cmd: EditCommand, io: Io)
    requires HistoryInv(l)
    ensures HistoryInv(StepLoad(l, pid, cmd, (cmd.org, cmd.id), io))
  {
    hide Decide, HistoryInv, MoveEditor, FinishEditor;
    var key: ReservationKey := (cmd.org, cmd.id);
    MoveKeeps(l, pid, cmd, Loading);
    if key in l.reservations && Decide(cmd, l.reservations[key].doc) != Refuse(ReservationNotFound) {
      var stored := l.reservations[key];
      LoadedHolds(l, cmd, stored);
      match Decide(cmd, stored.doc)
      case Refuse(_) =>
      case Apply(t) => MoveKeeps(l, pid, cmd, Writing(stored.doc, stored.cas, t));
      case ApplyUnlessConflict(_, t) => MoveKeeps(l, pid, cmd, CheckingConflict(stored.doc, stored.cas, t));
    }
  }

  lemma LoadedHolds(l: Ledger, cmd: EditCommand, stored: Stored<ReservationState>)
    requires HistoryInv(l)
    requires (cmd.org, cmd.id) in l.reservations && l.reservations[(cmd.org, cmd.id)] == stored
    ensures forall t :: DecidedTransition(Decide(cmd, stored.doc)) == Some(t) ==> HoldsOk(l, cmd, stored.doc, stored.cas, t)
  {
    hide Decide, AcknowledgedOk, EditorOk, Chain, Created;
    assert KeyOk(l, (cmd.org, cmd.id));
  }

  /** A conditional replace takes effect only on the document the decision was made on. */
  lemma WriteReplaces(l: Ledger, pid: nat, cmd: EditCommand, loaded: ReservationState, token: nat, t: Transition, io: Io)
    requires HoldsOk(l, cmd, loaded, token, t)
    requires Effective(io) && Enabled(loaded, t) && l.reservations[(cmd.org, cmd.id)].cas == token
    ensures Replaces(l, StepWrite(l, pid, (cmd.org, cmd.id), loaded, token, t, io), cmd, Next(loaded, t))
  {
    hide Decide, Next, Enabled;
  }

  lemma AppendedFollows(h: seq<ReservationState>, after: ReservationState)
    requires h != []
    ensures Follows(h + [after], h[|h| - 1], after)
  {
    var h' := h + [after];
    assert h'[|h| - 1] == h[|h| - 1] && h'[|h|] == after;
  }

  lemma ReplaceFollows(l: Ledger, l': Ledger, cmd: EditCommand, after: ReservationState)
    requires LedgerOk(l) && Replaces(l, l', cmd, after)
    ensures AcknowledgedOk(Acknowledgement((cmd.org, cmd.id), l.reservations[(cmd.org, cmd.id)].doc, after), l')
  {
    hide Edits, Chain, Created, StartOf, Follows;
    var key: ReservationKey := (cmd.org, cmd.id);
    assert KeyOk(l, key);
    hide KeyOk;
    AppendedFollows(l.history[key], after);
  }

  lemma WriteKeeps(l: Ledger, pid: nat, cmd: EditCommand, loaded: ReservationState, token: nat, t: Transition, io: Io)
    requires HistoryInv(l) && HoldsOk(l, cmd, loaded, token, t)
    ensures HistoryInv(StepWrite(l, pid, (cmd.org, cmd.id), loaded, token, t, io))
  {
    hide Decide, Next, Enabled, LedgerOk, EditorOk, AcknowledgedOk, Replaces;
    var key: ReservationKey := (cmd.org, cmd.id);
    var l' := StepWrite(l, pid, key, loaded, token, t, io);
    if Effective(io) && l.reservations[key].cas == token && Enabled(loaded, t) {
      WriteReplaces(l, pid, cmd, loaded, token, t, io);
      ChangeKeeps(l, l', Replace(cmd, Next(loaded, t)));
      ReplaceFollows(l, l', cmd, Next(loaded, t));
    } else {
      ChangeKeeps(l, l', Untouched);
    }
  }

  /** Every step of an edit handler keeps the invariant. */
  lemma EditorStepKeeps(l: Ledger, pid: nat, io: Io, conflict: bool)
    requires HistoryInv(l)
    ensures HistoryInv(EditorStep(l, pid, io, conflict))
  {
    hide LedgerOk, AcknowledgedOk, StepLoad, StepWrite, HoldsOk, MoveEditor, FinishEditor;
    if pid in l.editors {
      var cmd := l.editors[pid].cmd;
      assert EditorOk(l.editors[pid], l);
      match l.editors[pid].pc
      case Loading => LoadKeeps(l, pid, cmd, io);
      case CheckingConflict(loaded, token, t) => MoveKeeps(l, pid, cmd, Writing(loaded, token, t));
      case Writing(loaded, token, t) => WriteKeeps(l, pid, cmd, loaded, token, t, io);
    }
  }

  // ----- What every history satisfies -----

  predicate Departs(start: ReservationState, i: nat, r: ReservationState) {
    && SameIdentity(start, r) && Consistent(r) && r.version == (1 + i) % UINT64_LIMIT
    && (if i == 0 then r == start else Departed(start, r))
    && !r.status.Expired? && !r.status.Completed?
  }

  lemma EditDeparts(start: ReservationState, i: nat, c: EditCommand, key: ReservationKey, before: ReservationState,
                    after: ReservationState)
    requires IsCreation(start) && Departs(start, i, before) && Edits(c, key, before, after)
    ensures Departs(start, i + 1, after) && !IsTerminal(before.status)
  {
    hide Next, SameIdentity, Consistent, Departed;
    var t := DecidedTransition(Decide(c, before)).value;
    DepartureStep(start, before, t);
    VersionStep(1 + i);
    DecidedKind(c, before);
    NextStatus(before, t);
  }

  lemma DecidedKind(c: EditCommand, r: ReservationState)
    ensures var d := DecidedTransition(Decide(c, r)); d.Some? ==> !d.value.Expire? && !d.value.Complete?
  {
  }

  lemma NextStatus(r: ReservationState, t: Transition)
    requires Enabled(r, t) && !t.Expire? && !t.Complete?
    ensures var n := Next(r, t); n.version == NextVersion(r.version) && !n.status.Completed? && !n.status.Expired?
    ensures !IsTerminal(r.status)
  {
  }

  /**
   Every state in a history keeps the identity of the creation and consistent decision records,
   counts its version up by one, and differs from the creation for good once it has changed.
   */
  lemma {:induction false} HistoryDeparts(key: ReservationKey, h: seq<ReservationState>, i: nat)
    requires h != [] && IsCreation(h[0]) && Chain(key, h) && i < |h|
    ensures Departs(h[0], i, h[i])
    ensures i < |h| - 1 ==> !IsTerminal(h[i].status)
  {
    hide Edits, Decide, Departs, IsCreation;
    if i == 0 {
      FirstDeparts(h[0]);
    } else {
      HistoryDeparts(key, h, i - 1);
      assert OneEdit(key, h[i - 1], h[i - 1 + 1]);
      var c: EditCommand :| Edits(c, key, h[i - 1], h[i]);
      EditDeparts(h[0], i - 1, c, key, h[i - 1], h[i]);
    }
    if i < |h| - 1 {
      assert OneEdit(key, h[i], h[i + 1]);
      var c: EditCommand :| Edits(c, key, h[i], h[i + 1]);
      EditDeparts(h[0], i, c, key, h[i], h[i + 1]);
    }
  }

  lemma FirstDeparts(start: ReservationState)
    requires IsCreation(start)
    ensures Departs(start, 0, start)
  {
  }

  lemma StartIsCreation(c: Creation)
    ensures IsCreation(StartOf(c))
  {
  }

  /** On a departed state recovery finds no match. */
  lemma DepartedMismatch(owner: Request, pending: bool, r: ReservationState, cmd: Command)
    requires Departed(Created(owner.cmd, pending), r) && cmd.Payload() == owner.cmd.Payload()
    ensures !MatchesOriginal(r, ProcessingRecord(owner), cmd)
  {
  }

  /**
   Recovery is exact: for a retry with the payload of the owner, the stored reservation matches
   the original operation if and only if nothing has happened to it since its creation.
   */
  lemma RecoveryExact(key: ReservationKey, h: seq<ReservationState>, owner: Request, pending: bool, cmd: Command)
    requires h != [] && h[0] == Created(owner.cmd, pending) && Chain(key, h)
    requires cmd.Payload() == owner.cmd.Payload()
    ensures MatchesOriginal(h[|h| - 1], ProcessingRecord(owner), cmd) <==> |h| == 1
    ensures MatchesOriginal(h[|h| - 1], ProcessingRecord(owner), cmd) ==> h[|h| - 1] == Created(owner.cmd, pending)
  {
    hide Chain, Departed, SameIdentity, Consistent;
    StartIsCreation(Creation(owner, pending));
    if |h| > 1 {
      HistoryDeparts(key, h, |h| - 1);
      DepartedMismatch(owner, pending, h[|h| - 1], cmd);
    }
  }

  // ----- Versions never wrap along a history -----

  /**
   How far the extensions of an interval can have come: an extension ends within the longest
   permitted duration or, where the 64-bit duration wraps around, beyond INT64_MAX.
   */
  function Progress(interval: Interval): nat {
    var length := interval.end - interval.start;
    if length <= MAXIMUM_MAINTENANCE_DURATION then length
    else if length <= INT64_MAX then MAXIMUM_MAINTENANCE_DURATION
    else MAXIMUM_MAINTENANCE_DURATION + (length - INT64_MAX)
  }

  /** What the life of a reservation has used up: moves of its end, one approval, one ending. */
  function Spent(r: ReservationState): nat {
    Progress(r.interval) + (if r.approval.Some? then 1 else 0) + (if IsTerminal(r.status) then 1 else 0)
  }

  lemma SpentBelow(r: ReservationState)
    ensures Spent(r) < UINT64_LIMIT - 1
  {
  }

  lemma ExtensionProgress(c: EditCommand, r: ReservationState)
    requires c.ExtendCommand? && DecidedTransition(Decide(c, r)).Some?
    ensures var t := DecidedTransition(Decide(c, r)).value;
      && t.Extend? && r.interval.end < t.newEnd
      && Progress(TimeInterval(r.interval.start, t.newEnd)) > Progress(r.interval)
  {
  }

  lemma DecisionSpends(r: ReservationState, t: Transition)
    requires Enabled(r, t) && !t.Extend? && !t.Expire? && !t.Complete? && Consistent(r)
    ensures Spent(Next(r, t)) > Spent(r)
  {
    hide Progress;
  }

  /** Every edit uses up something. */
  lemma EditSpends(c: EditCommand, key: ReservationKey, before: ReservationState, after: ReservationState)
    requires Edits(c, key, before, after) && Consistent(before)
    ensures Spent(after) > Spent(before)
  {
    hide Consistent, Progress;
    DecidedKind(c, before);
    if c.ExtendCommand? {
      ExtensionProgress(c, before);
    } else {
      hide Spent, Next, Enabled;
      DecisionSpends(before, DecidedTransition(Decide(c, before)).value);
    }
  }

  lemma {:induction false} HistorySpends(key: ReservationKey, h: seq<ReservationState>, i: nat)
    requires h != [] && IsCreation(h[0]) && Chain(key, h) && i < |h|
    ensures i <= Spent(h[i])
  {
    hide Edits, Spent, IsCreation, SameIdentity, Departed;
    if i > 0 {
      HistorySpends(key, h, i - 1);
      HistoryDeparts(key, h, i - 1);
      assert OneEdit(key, h[i - 1], h[i - 1 + 1]);
      var c: EditCommand :| Edits(c, key, h[i - 1], h[i]);
      EditSpends(c, key, h[i - 1], h[i]);
    }
  }

  /** The version of a state is its place in the history, and never wraps. */
  lemma HistoryVersions(key: ReservationKey, h: seq<ReservationState>, i: nat)
    requires h != [] && IsCreation(h[0]) && Chain(key, h) && i < |h|
    ensures h[i].version == 1 + i
  {
    hide Chain, Spent, IsCreation, SameIdentity, Consistent, Departed;
    HistoryDeparts(key, h, i);
    HistorySpends(key, h, i);
    SpentBelow(h[i]);
  }

  lemma CreatedUnderKey(c: Creation)
    ensures (StartOf(c).org, StartOf(c).id) == KeyOfReservation(c.req)
  {
  }

  /** A stored reservation carries the identifiers of its key. */
  lemma StoredUnderKey(l: Ledger, key: ReservationKey)
    requires HistoryInv(l) && key in l.reservations
    ensures (l.reservations[key].doc.org, l.reservations[key].doc.id) == key
  {
    hide EditorsOk, AcknowledgementsOk, Chain, StartOf, IsCreation, Consistent, Departed;
    assert KeyOk(l, key);
    var h := l.history[key];
    StartIsCreation(l.created[key]);
    CreatedUnderKey(l.created[key]);
    HistoryDeparts(key, h, |h| - 1);
  }
}
