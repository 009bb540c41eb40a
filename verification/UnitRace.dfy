/**
 Creations that compete for the last units of a resource, while other processes do anything that
 does not concern them: which of them are confirmed, as a function of the order of their steps.
 */
module UnitRace {
  import opened Wrappers
  import opened Timestamp
  import opened Domain
  import opened Idempotency
  import opened Handlers
  import opened Collections
  import opened Schedule
  import opened World
  import opened StepShapes
  import opened SystemInvariant
  import opened ConcurrentCapacity
  import opened CreationInvariant
  import Creating = CreationSteps
  import History = ReservationHistory
  import Books = OutboxInvariant

  // ----- The race -----

  /** The rivals that have counted a unit for themselves, those that have inserted, and those that have been refused. */
  datatype Race = Race(waiting: set<nat>, placed: set<nat>, refused: set<nat>)

  /** A step of a rival when `units` were left at the start: to count, and to insert if fewer had inserted then. */
  function Advance(race: Race, pid: nat, units: nat): Race {
    if pid in race.placed || pid in race.refused then race
    else if pid in race.waiting then race.(waiting := race.waiting - {pid}, placed := race.placed + {pid})
    else if |race.placed| < units then race.(waiting := race.waiting + {pid})
    else race.(refused := race.refused + {pid})
  }

  predicate Steps(a: Action, pid: nat) {
    a.StepCreate? && a.pid == pid
  }

  function RaceOf(more: seq<Action>, rivals: set<nat>, units: nat): Race
    decreases |more|
  {
    if more == [] then Race({}, {}, {})
    else
      var race, a := RaceOf(more[..|more| - 1], rivals, units), more[|more| - 1];
      if a.StepCreate? && a.pid in rivals then Advance(race, a.pid, units) else race
  }

  // ----- Rivals -----

  /** The number of confirmed reservations that overlap what the command asks for. */
  function Blocking(w: World, req: Request): nat {
    |ConflictingKeys(BookOf(w.ledger), req.cmd.org, req.cmd.resource, req.cmd.interval)|
  }

  predicate Compete(a: Request, b: Request) {
    a.cmd.org == b.cmd.org && a.cmd.resource == b.cmd.resource && a.cmd.interval.Overlaps(b.cmd.interval)
  }

  /** The cast to `int` keeps the units and every count that a rival can make. */
  predicate CountsSurvive(r: Resource, units: nat, rivals: nat) {
    units <= r.totalUnits < 0x8000_0000 && r.totalUnits - units + rivals <= 0x8000_0000
  }

  /** Handlers about to count, for pairwise overlapping intervals of one resource with `units` left. */
  ghost predicate Rivals(w: World, rivals: map<nat, Request>, r: Resource, units: nat) {
    && !r.requiresApproval && CountsSurvive(r, units, |rivals|)
    && (forall p :: p in rivals ==>
          Creating.Runs(w, p, rivals[p], Counting(r)) && Blocking(w, rivals[p]) == r.totalUnits - units)
    && (forall p, q :: p in rivals && q in rivals ==> Compete(rivals[p], rivals[q]))
  }

  /** A step of a handler with working stores and a true count. */
  predicate TrueStep(w: World, a: Action, pid: nat) {
    && Steps(a, pid) && a.io.Works?
    && (pid in w.claims.creators && w.claims.creators[pid].pc.Counting? ==>
          a.count == ToInt32(Blocking(w, w.claims.creators[pid].req)))
  }

  predicate Concerns(a: Action, pid: nat) {
    (a.SubmitCreate? || a.StepCreate? || a.CrashCreate?) && a.pid == pid
  }

  predicate SameStored(w: World, w': World, key: ReservationKey) {
    && (key in w'.ledger.reservations <==> key in w.ledger.reservations)
    && (key in w.ledger.reservations ==> w'.ledger.reservations[key].doc == w.ledger.reservations[key].doc)
  }

  /** An action of another process that changes neither what a rival counts nor its reservation. */
  ghost predicate Aside(w: World, a: Action, rivals: map<nat, Request>) {
    forall p :: p in rivals ==>
      && !Concerns(a, p) && Blocking(Act(w, a), rivals[p]) == Blocking(w, rivals[p])
      && SameStored(w, Act(w, a), KeyOfReservation(rivals[p]))
  }

  /** Every action of a run is a true step of a rival, or leaves the rivals alone. */
  ghost predicate Proceeds(actions: seq<Action>, more: seq<Action>, rivals: map<nat, Request>) {
    forall i :: 0 <= i < |more| ==> Proper(Run(actions + more[..i]), more[i], rivals)
  }

  ghost predicate Proper(w: World, a: Action, rivals: map<nat, Request>) {
    Aside(w, a, rivals) || (a.StepCreate? && a.pid in rivals && TrueStep(w, a, a.pid))
  }

  predicate Confirms(w: World, req: Request) {
    var key := KeyOfReservation(req);
    key in w.ledger.reservations && w.ledger.reservations[key].doc == Created(req.cmd, false)
  }

  // ----- One action -----

  /** A handler is moved by its own actions only. */
  lemma OthersStay(w: World, a: Action, pid: nat)
    requires !Concerns(a, pid)
    ensures SameHandler(w, Act(w, a), pid)
  {
    hide CreatorStep, EditorStep, PublisherStep, Prepare, Fresh;
    if a.StepCreate? {
      OthersAlone(w, a.pid, a.io, a.resource, a.count, pid);
    }
  }

  lemma NobodySteps(w: World, a: Action)
    requires a.StepCreate? && a.pid !in w.claims.creators
    ensures Act(w, a) == w
  {
    hide StepClaim, StepReadClaim, StepRecover, StepCheckEvent, StepReadResource, StepCount, StepPersist, StepReadToken,
         StepCompletionRead, StepCompletionWrite, StepReconcile;
  }

  /** Only persisting changes reservations. */
  lemma StepLedger(w: World, a: Action)
    requires a.StepCreate? && (a.pid in w.claims.creators ==> !w.claims.creators[a.pid].pc.Persisting?)
    ensures Act(w, a).ledger == w.ledger
  {
    hide CreatorStep;
    if a.pid in w.claims.creators {
      CreatorFrame(w, a.pid, a.io, a.resource, a.count);
    } else {
      NobodySteps(w, a);
    }
  }

  /** A handler whose reservation is stored does not persist. */
  lemma StoredNotPersisting(w: World, pid: nat, req: Request, pc: CreatePc)
    requires Inv(w) && Creating.Runs(w, pid, req, pc) && (pc.Persisting? || pc.Counting?)
    ensures KeyOfReservation(req) !in w.ledger.reservations
  {
    hide Inv, CreationInv, History.HistoryInv, Books.OutboxInv, PreparedOk, SharedOk, KeysOk;
    Parts(w);
    Creating.Now(w, pid, req, pc);
    Creating.LedgerKeys(w.ledger);
  }

  /** Counting with a unit left goes on to persist. */
  lemma CountsFree(w: World, a: Action, req: Request, r: Resource)
    requires a.StepCreate? && TrueStep(w, a, a.pid) && Creating.Runs(w, a.pid, req, Counting(r)) && !r.requiresApproval
    requires r.totalUnits < 0x8000_0000 && Blocking(w, req) < r.totalUnits
    ensures Creating.Runs(Act(w, a), a.pid, req, Persisting(false))
  {
    SmallCount(Blocking(w, req));
    SmallCount(r.totalUnits);
    hide Blocking, ToInt32;
  }

  /** Counting without a unit left goes on to record a rejection. */
  lemma CountsFull(w: World, a: Action, req: Request, r: Resource)
    requires a.StepCreate? && TrueStep(w, a, a.pid) && Creating.Runs(w, a.pid, req, Counting(r))
    requires r.totalUnits <= Blocking(w, req) < 0x8000_0000
    ensures Rejected(Act(w, a), a.pid, req)
  {
    SmallCount(Blocking(w, req));
    SmallCount(r.totalUnits);
    hide Blocking, ToInt32;
  }

  /** The handler is recording a rejection, or has ended. */
  predicate Rejected(w: World, pid: nat, req: Request) {
    pid in w.claims.creators ==>
      var c := w.claims.creators[pid];
      && c.req == req && (c.pc.CompletionRead? || c.pc.CompletionWrite? || c.pc.CompletionReconcile?)
      && !c.pc.completion.succeeded
  }

  lemma RejectedStays(w: World, a: Action, req: Request)
    requires a.StepCreate? && a.io.Works? && Rejected(w, a.pid, req)
    ensures Rejected(Act(w, a), a.pid, req)
  {
    hide ValidateCompletion, CompletedRecord, CompletionKey;
    if a.pid !in w.claims.creators { NobodySteps(w, a); }
  }

  /** Persisting stores the confirmed reservation and leaves the others. */
  lemma Persists(w: World, a: Action, req: Request)
    requires Inv(w) && a.StepCreate? && a.io.Works? && Creating.Runs(w, a.pid, req, Persisting(false))
    ensures var w' := Act(w, a);
      && Creating.Runs(w', a.pid, req, ReadingToken(false))
      && w'.ledger == InsertReservation(w.ledger, Creation(req, false))
      && KeyOfReservation(req) !in w.ledger.reservations && Confirms(w', req)
  {
    hide Inv, CreationInv, History.HistoryInv, Books.OutboxInv, PreparedOk, SharedOk, KeysOk, Created, KeysOfEvents,
         InsertEvents;
    Parts(w);
    Creating.Now(w, a.pid, req, Persisting(false));
    Creating.LedgerKeys(w.ledger);
    Creating.NothingStored(w, req, false);
  }

  predicate Belongs(w: World, pid: nat, req: Request) {
    pid in w.claims.creators ==> w.claims.creators[pid].req == req
  }

  lemma RequestKept(w: World, a: Action, req: Request)
    requires a.StepCreate? && Belongs(w, a.pid, req)
    ensures Belongs(Act(w, a), a.pid, req)
  {
    hide CreatorStep;
    if a.pid !in w.claims.creators {
      NobodySteps(w, a);
    } else {
      StepFramed(w, a.pid, a.io, a.resource, a.count);
    }
  }

  /** The confirmed reservation of one rival takes a unit the other would count. */
  lemma TakesUnit(l: Ledger, a: Request, b: Request)
    requires KeyOfReservation(a) !in l.reservations && Compete(a, b)
    ensures var l' := InsertReservation(l, Creation(a, false));
      |ConflictingKeys(BookOf(l'), b.cmd.org, b.cmd.resource, b.cmd.interval)|
      == |ConflictingKeys(BookOf(l), b.cmd.org, b.cmd.resource, b.cmd.interval)| + 1
  {
    var k, r := KeyOfReservation(a), Created(a.cmd, false);
    BookInserted(l, Creation(a, false));
    assert Conflicting(r, b.cmd.org, b.cmd.resource, b.cmd.interval);
    hide InsertReservation, Conflicting, Created;
    ConflictingAfter(BookOf(l), k, r, b.cmd.org, b.cmd.resource, b.cmd.interval);
    assert k !in ConflictingKeys(BookOf(l), b.cmd.org, b.cmd.resource, b.cmd.interval);
    hide ConflictingKeys, BookOf;
  }

  // ----- The state of the race in the service -----

  /** Where a rival stands: what it has done, and what is stored for it. */
  predicate Stands(w: World, pid: nat, req: Request, r: Resource, units: nat, race: Race)
    requires units <= r.totalUnits
  {
    if pid in race.placed then Confirms(w, req) && Belongs(w, pid, req)
    else if pid in race.refused then Rejected(w, pid, req) && KeyOfReservation(req) !in w.ledger.reservations
    else if pid in race.waiting then Creating.Runs(w, pid, req, Persisting(false))
    else Creating.Runs(w, pid, req, Counting(r)) && Blocking(w, req) == r.totalUnits - units + |race.placed|
  }

  predicate Sound(race: Race, rivals: set<nat>) {
    && (forall p :: p in race.waiting ==> p in rivals && p !in race.placed && p !in race.refused)
    && (forall p :: p in race.placed ==> p in rivals && p !in race.refused)
    && race.refused <= rivals
  }

  ghost predicate Keys(rivals: map<nat, Request>) {
    forall p, q :: p in rivals && q in rivals && p != q ==> KeyOfReservation(rivals[p]) != KeyOfReservation(rivals[q])
  }

  ghost predicate Field(rivals: map<nat, Request>, r: Resource, units: nat) {
    && !r.requiresApproval && CountsSurvive(r, units, |rivals|) && Keys(rivals)
    && (forall p, q :: p in rivals && q in rivals ==> Compete(rivals[p], rivals[q]))
  }

  ghost predicate Standing(w: World, rivals: map<nat, Request>, r: Resource, units: nat, race: Race)
    requires units <= r.totalUnits
  {
    forall p :: p in rivals ==> Stands(w, p, rivals[p], r, units, race)
  }

  lemma AsideStands(w: World, a: Action, rivals: map<nat, Request>, p: nat, r: Resource, units: nat, race: Race)
    requires units <= r.totalUnits && p in rivals && Aside(w, a, rivals) && Stands(w, p, rivals[p], r, units, race)
    ensures Stands(Act(w, a), p, rivals[p], r, units, race)
  {
    hide Act, Blocking, Created;
    OthersStay(w, a, p);
  }

  lemma PlacedFew(race: Race, rivals: map<nat, Request>, pid: nat)
    requires Sound(race, rivals.Keys) && pid in rivals && pid !in race.placed
    ensures |race.placed| < |rivals|
  {
    SubsetSize(race.placed + {pid}, rivals.Keys);
  }

  /** The rival that steps stands where the race says. */
  lemma StepStands(w: World, a: Action, rivals: map<nat, Request>, r: Resource, units: nat, race: Race)
    requires Inv(w) && Field(rivals, r, units) && Sound(race, rivals.Keys)
    requires a.StepCreate? && a.pid in rivals && TrueStep(w, a, a.pid)
    requires Stands(w, a.pid, rivals[a.pid], r, units, race)
    ensures Stands(Act(w, a), a.pid, rivals[a.pid], r, units, Advance(race, a.pid, units))
    ensures Act(w, a).ledger == if a.pid in race.waiting then InsertReservation(w.ledger, Creation(rivals[a.pid], false))
                                else w.ledger
    ensures a.pid in race.waiting ==> KeyOfReservation(rivals[a.pid]) !in w.ledger.reservations
  {
    hide Inv, Act, Blocking, Created, Compete, Keys, InsertReservation;
    var x, req := a.pid, rivals[a.pid];
    if x in race.placed {
      if x in w.claims.creators && w.claims.creators[x].pc.Persisting? {
        StoredNotPersisting(w, x, req, w.claims.creators[x].pc);
      }
      RequestKept(w, a, req);
      StepLedger(w, a);
    } else if x in race.refused {
      RejectedStays(w, a, req);
      StepLedger(w, a);
    } else if x in race.waiting {
      Persists(w, a, req);
    } else {
      PlacedFew(race, rivals, x);
      StepLedger(w, a);
      if |race.placed| < units {
        CountsFree(w, a, req, r);
      } else {
        StoredNotPersisting(w, x, req, Counting(r));
        CountsFull(w, a, req, r);
      }
    }
  }

  /** Where another rival stands depends on its handler, what is stored for it and what it would count. */
  lemma StandsAlike(w: World, w': World, p: nat, req: Request, r: Resource, units: nat, race: Race, race': Race)
    requires units <= r.totalUnits && Stands(w, p, req, r, units, race)
    requires SameHandler(w, w', p) && SameStored(w, w', KeyOfReservation(req))
    requires Blocking(w', req) - |race'.placed| == Blocking(w, req) - |race.placed|
    requires (p in race'.placed <==> p in race.placed) && (p in race'.refused <==> p in race.refused)
    requires p in race'.waiting <==> p in race.waiting
    ensures Stands(w', p, req, r, units, race')
  {
    hide Blocking, Created;
  }

  lemma AdvanceOther(race: Race, rivals: set<nat>, x: nat, units: nat, p: nat)
    requires Sound(race, rivals) && p != x
    ensures var race' := Advance(race, x, units);
      && (p in race'.placed <==> p in race.placed) && (p in race'.refused <==> p in race.refused)
      && (p in race'.waiting <==> p in race.waiting)
      && |race'.placed| == |race.placed| + (if x in race.waiting then 1 else 0)
  {
  }

  lemma SameLedger(w: World, w': World, req: Request)
    requires w'.ledger == w.ledger
    ensures SameStored(w, w', KeyOfReservation(req)) && Blocking(w', req) == Blocking(w, req)
  {
  }

  lemma InsertedBeside(w: World, w': World, a: Request, b: Request)
    requires w'.ledger == InsertReservation(w.ledger, Creation(a, false)) && KeyOfReservation(a) !in w.ledger.reservations
    requires KeyOfReservation(a) != KeyOfReservation(b) && Compete(a, b)
    ensures SameStored(w, w', KeyOfReservation(b)) && Blocking(w', b) == Blocking(w, b) + 1
  {
    TakesUnit(w.ledger, a, b);
    hide Created, ConflictingKeys, BookOf;
  }

  /** The other rivals stand where they stood, with one unit less to count when a rival has inserted. */
  lemma OtherStands(w: World, a: Action, rivals: map<nat, Request>, r: Resource, units: nat, race: Race, p: nat)
    requires Field(rivals, r, units) && Sound(race, rivals.Keys)
    requires a.StepCreate? && a.pid in rivals && p in rivals && p != a.pid
    requires Stands(w, p, rivals[p], r, units, race)
    requires Act(w, a).ledger == if a.pid in race.waiting then InsertReservation(w.ledger, Creation(rivals[a.pid], false))
                                 else w.ledger
    requires a.pid in race.waiting ==> KeyOfReservation(rivals[a.pid]) !in w.ledger.reservations
    ensures Stands(Act(w, a), p, rivals[p], r, units, Advance(race, a.pid, units))
  {
    hide Act, Blocking, SameHandler, SameStored, InsertReservation, Stands, Compete, Advance, Sound;
    OthersStay(w, a, p);
    AdvanceOther(race, rivals.Keys, a.pid, units, p);
    if a.pid in race.waiting {
      InsertedBeside(w, Act(w, a), rivals[a.pid], rivals[p]);
    } else {
      SameLedger(w, Act(w, a), rivals[p]);
    }
    StandsAlike(w, Act(w, a), p, rivals[p], r, units, race, Advance(race, a.pid, units));
  }

  lemma AdvanceSound(race: Race, rivals: set<nat>, pid: nat, units: nat)
    requires Sound(race, rivals) && pid in rivals
    ensures Sound(Advance(race, pid, units), rivals)
  {
  }

  lemma ProperStands(w: World, a: Action, rivals: map<nat, Request>, r: Resource, units: nat, race: Race)
    requires Inv(w) && Field(rivals, r, units) && Sound(race, rivals.Keys) && Standing(w, rivals, r, units, race)
    requires Proper(w, a, rivals)
    ensures var race' := if a.StepCreate? && a.pid in rivals then Advance(race, a.pid, units) else race;
      Sound(race', rivals.Keys) && Standing(Act(w, a), rivals, r, units, race')
  {
    hide Inv, Act, Field, Stands, Sound, Advance, TrueStep;
    FieldUnits(rivals, r, units);
    if Aside(w, a, rivals) {
      forall p | p in rivals
        ensures Stands(Act(w, a), p, rivals[p], r, units, race)
      {
        AsideStands(w, a, rivals, p, r, units, race);
      }
    } else {
      StepStands(w, a, rivals, r, units, race);
      AdvanceSound(race, rivals.Keys, a.pid, units);
      forall p | p in rivals && p != a.pid
        ensures Stands(Act(w, a), p, rivals[p], r, units, Advance(race, a.pid, units))
      {
        OtherStands(w, a, rivals, r, units, race, p);
      }
    }
  }

  lemma FieldUnits(rivals: map<nat, Request>, r: Resource, units: nat)
    requires Field(rivals, r, units)
    ensures units <= r.totalUnits
  {
  }

  lemma AllUncounted(w: World, rivals: map<nat, Request>, r: Resource, units: nat)
    requires Inv(w) && Rivals(w, rivals, r, units)
    ensures Field(rivals, r, units) && Standing(w, rivals, r, units, Race({}, {}, {}))
  {
    hide Inv, Blocking, Compete;
    forall p, q | p in rivals && q in rivals && p != q
      ensures KeyOfReservation(rivals[p]) != KeyOfReservation(rivals[q])
    {
      DifferentKeys(w, p, q, rivals[p], rivals[q], Counting(r));
    }
  }

  /** Two live handlers run different requests, with different identifiers. */
  lemma DifferentKeys(w: World, p: nat, q: nat, a: Request, b: Request, pc: CreatePc)
    requires Inv(w) && p != q && Creating.Runs(w, p, a, pc) && Creating.Runs(w, q, b, pc)
    ensures KeyOfReservation(a) != KeyOfReservation(b)
  {
    hide RecordsOk, CreatedOk, KeysOk, CreatorOk, ResponsesOk, PreparedOk, History.HistoryInv, Books.OutboxInv;
    if KeyOfReservation(a) == KeyOfReservation(b) {
      OneOwner(SharedOf(w), w.claims.issued, a, b);
    }
  }

  lemma {:induction false} RaceStands(actions: seq<Action>, more: seq<Action>, rivals: map<nat, Request>, r: Resource,
                                      units: nat)
    requires Rivals(Run(actions), rivals, r, units) && Proceeds(actions, more, rivals)
    ensures Field(rivals, r, units)
    ensures var race := RaceOf(more, rivals.Keys, units);
      Sound(race, rivals.Keys) && Standing(Run(actions + more), rivals, r, units, race)
    decreases |more|
  {
    hide Act, Inv, Rivals, Field, Standing, Proper, Advance, Sound, Proceeds;
    RunKeeps(actions);
    AllUncounted(Run(actions), rivals, r, units);
    FieldUnits(rivals, r, units);
    if more == [] {
      assert actions + more == actions;
      NothingMarked(rivals.Keys);
    } else {
      var n := |more| - 1;
      assert (actions + more)[..|actions + more| - 1] == actions + more[..n];
      Shorter(actions, more, rivals);
      RaceStands(actions, more[..n], rivals, r, units);
      RunKeeps(actions + more[..n]);
      ProperStands(Run(actions + more[..n]), more[n], rivals, r, units, RaceOf(more[..n], rivals.Keys, units));
    }
  }

  lemma Shorter(actions: seq<Action>, more: seq<Action>, rivals: map<nat, Request>)
    requires more != [] && Proceeds(actions, more, rivals)
    ensures Proceeds(actions, more[..|more| - 1], rivals)
    ensures Proper(Run(actions + more[..|more| - 1]), more[|more| - 1], rivals)
  {
    hide Run, Proper;
    var init := more[..|more| - 1];
    forall i | 0 <= i < |init|
      ensures Proper(Run(actions + init[..i]), init[i], rivals)
    {
      assert init[..i] == more[..i] && init[i] == more[i];
      assert Proper(Run(actions + more[..i]), more[i], rivals);
    }
  }

  lemma PlacedIsConfirmed(w: World, p: nat, req: Request, r: Resource, units: nat, race: Race)
    requires Inv(w) && units <= r.totalUnits && Stands(w, p, req, r, units, race)
    ensures Confirms(w, req) <==> p in race.placed
  {
    hide Inv, Blocking, Created;
    if p !in race.placed && p !in race.refused {
      StoredNotPersisting(w, p, req, w.claims.creators[p].pc);
    }
  }

  /**
   From every reachable state in which any number of creations compete for the units left of a
   resource, and along every run on from there whose other actions leave them alone, exactly the
   rivals are confirmed that have inserted after counting when fewer had inserted than units were
   left.
   */
  lemma RaceExactly(actions: seq<Action>, more: seq<Action>, rivals: map<nat, Request>, r: Resource, units: nat, p: nat)
    requires Rivals(Run(actions), rivals, r, units) && Proceeds(actions, more, rivals) && p in rivals
    ensures Confirms(Run(actions + more), rivals[p]) <==> p in RaceOf(more, rivals.Keys, units).placed
  {
    hide Run, Inv, Rivals, Proceeds, Field, Stands, RaceOf;
    RaceStands(actions, more, rivals, r, units);
    FieldUnits(rivals, r, units);
    RunKeeps(actions + more);
    PlacedIsConfirmed(Run(actions + more), p, rivals[p], r, units, RaceOf(more, rivals.Keys, units));
  }

  // ----- How many are confirmed -----

  function StepsBy(more: seq<Action>, pid: nat): nat
    decreases |more|
  {
    if more == [] then 0 else StepsBy(more[..|more| - 1], pid) + (if Steps(more[|more| - 1], pid) then 1 else 0)
  }

  /** The rivals that have counted a unit for themselves, whether or not they have inserted. */
  function Admitted(race: Race): nat {
    |race.waiting| + |race.placed|
  }

  /** How the steps of a rival show in the race. */
  predicate Marks(race: Race, pid: nat, steps: nat) {
    && (steps == 0 <==> pid !in race.waiting && pid !in race.placed && pid !in race.refused)
    && (pid in race.waiting ==> steps == 1) && (pid in race.placed ==> steps >= 2)
  }

  lemma AdvanceMarks(race: Race, rivals: set<nat>, x: nat, units: nat, pid: nat, steps: nat)
    requires Sound(race, rivals) && Marks(race, pid, steps)
    ensures Marks(Advance(race, x, units), pid, steps + (if x == pid then 1 else 0))
  {
  }

  lemma {:induction false} RaceSound(more: seq<Action>, rivals: set<nat>, units: nat)
    ensures Sound(RaceOf(more, rivals, units), rivals)
    decreases |more|
  {
    hide Advance, Sound;
    if more == [] {
      NothingMarked(rivals);
    } else {
      var init, a := more[..|more| - 1], more[|more| - 1];
      RaceSound(init, rivals, units);
      if a.StepCreate? && a.pid in rivals { AdvanceSound(RaceOf(init, rivals, units), rivals, a.pid, units); }
    }
  }

  lemma NothingMarked(rivals: set<nat>)
    ensures Sound(Race({}, {}, {}), rivals)
  {
  }

  lemma {:induction false} RaceMarks(more: seq<Action>, rivals: set<nat>, units: nat, pid: nat)
    requires pid in rivals
    ensures Marks(RaceOf(more, rivals, units), pid, StepsBy(more, pid))
    decreases |more|
  {
    hide Advance, Sound;
    if more != [] {
      var init, a := more[..|more| - 1], more[|more| - 1];
      RaceMarks(init, rivals, units, pid);
      RaceSound(init, rivals, units);
      if a.StepCreate? && a.pid in rivals {
        AdvanceMarks(RaceOf(init, rivals, units), rivals, a.pid, units, pid, StepsBy(init, pid));
      }
    }
  }

  /** A refusal means that as many have inserted as units were left. */
  predicate Full(race: Race, units: nat) {
    race.refused != {} ==> |race.placed| >= units
  }

  lemma AdvanceFull(race: Race, rivals: set<nat>, x: nat, units: nat)
    requires Sound(race, rivals) && Full(race, units)
    ensures Full(Advance(race, x, units), units)
  {
  }

  lemma {:induction false} RaceFull(more: seq<Action>, rivals: set<nat>, units: nat)
    ensures Full(RaceOf(more, rivals, units), units)
    decreases |more|
  {
    hide Advance, Sound;
    if more != [] {
      var init, a := more[..|more| - 1], more[|more| - 1];
      RaceFull(init, rivals, units);
      RaceSound(init, rivals, units);
      if a.StepCreate? && a.pid in rivals { AdvanceFull(RaceOf(init, rivals, units), rivals, a.pid, units); }
    }
  }

  lemma {:induction false} AdmittedGrows(more: seq<Action>, rivals: set<nat>, units: nat, i: nat)
    requires i <= |more|
    ensures Admitted(RaceOf(more[..i], rivals, units)) <= Admitted(RaceOf(more, rivals, units))
    decreases |more|
  {
    if i == |more| {
      assert more[..i] == more;
    } else {
      var init := more[..|more| - 1];
      assert init[..i] == more[..i];
      AdmittedGrows(init, rivals, units, i);
    }
  }

  /** Every rival has counted and inserted, or could have. */
  ghost predicate Complete(more: seq<Action>, rivals: set<nat>) {
    forall p :: p in rivals ==> StepsBy(more, p) >= 2
  }

  /** At some point more rivals than units are past their count. */
  ghost predicate Crowded(more: seq<Action>, rivals: set<nat>, units: nat) {
    exists i :: 0 <= i <= |more| && Admitted(RaceOf(more[..i], rivals, units)) > units
  }

  lemma PlacedAtEnd(more: seq<Action>, rivals: set<nat>, units: nat)
    requires Complete(more, rivals)
    ensures var n := |RaceOf(more, rivals, units).placed|;
      && (n >= units || n == |rivals|) && n <= |rivals| && (n > units <==> Crowded(more, rivals, units))
  {
    var race := RaceOf(more, rivals, units);
    hide RaceOf, Sound, StepsBy;
    EndsSound(more, rivals, units);
    if race.refused == {} { assert race.placed == rivals; }
    assert more[..|more|] == more;
    if i :| 0 <= i <= |more| && Admitted(RaceOf(more[..i], rivals, units)) > units {
      AdmittedGrows(more, rivals, units, i);
    }
  }

  lemma EndsSound(more: seq<Action>, rivals: set<nat>, units: nat)
    requires Complete(more, rivals)
    ensures var race := RaceOf(more, rivals, units);
      && race.waiting == {} && race.placed + race.refused == rivals && |race.placed| <= |rivals|
      && (race.refused != {} ==> |race.placed| >= units)
  {
    hide RaceOf, StepsBy;
    var race := RaceOf(more, rivals, units);
    forall p | p in rivals
      ensures Marks(race, p, StepsBy(more, p))
    {
      RaceMarks(more, rivals, units, p);
    }
    RaceSound(more, rivals, units);
    RaceFull(more, rivals, units);
    SubsetSize(race.placed, rivals);
  }

  /** The rivals that are confirmed. */
  function Confirmed(w: World, rivals: map<nat, Request>): set<nat> {
    set p | p in rivals && Confirms(w, rivals[p])
  }

  /**
   When every rival has stepped twice, no unit is left over that a rival could have had, and more
   are confirmed than units were left if and only if at some point more of them than units had
   counted one for themselves.
   */
  lemma ConfirmedCount(actions: seq<Action>, more: seq<Action>, rivals: map<nat, Request>, r: Resource, units: nat)
    requires Rivals(Run(actions), rivals, r, units) && Proceeds(actions, more, rivals) && Complete(more, rivals.Keys)
    ensures var confirmed := Confirmed(Run(actions + more), rivals);
      && confirmed == RaceOf(more, rivals.Keys, units).placed
      && (|confirmed| >= units || |confirmed| == |rivals|)
      && (|confirmed| > units <==> Crowded(more, rivals.Keys, units))
  {
    hide Run, Rivals, Proceeds, RaceOf, Confirms, Crowded, Complete;
    var race := RaceOf(more, rivals.Keys, units);
    forall p | p in rivals
      ensures Confirms(Run(actions + more), rivals[p]) <==> p in race.placed
    {
      RaceExactly(actions, more, rivals, r, units, p);
    }
    PlacedAtEnd(more, rivals.Keys, units);
    RaceSound(more, rivals.Keys, units);
    assert Confirmed(Run(actions + more), rivals) == race.placed;
  }

  // ----- Two rivals for one unit -----

  /** At some point each of two handlers has taken exactly its first step: both have counted and none has inserted. */
  ghost predicate BothCountFirst(more: seq<Action>, p: nat, q: nat) {
    exists i :: 0 <= i <= |more| && StepsBy(more[..i], p) == 1 == StepsBy(more[..i], q)
  }

  lemma AdmitsSecond(race: Race, x: nat, p: nat, q: nat, m: nat, n: nat)
    requires p != q && (x == p || x == q) && Sound(race, {p, q}) && Marks(race, p, m) && Marks(race, q, n)
    requires Admitted(race) <= 1 && Admitted(Advance(race, x, 1)) > 1
    ensures m + (if x == p then 1 else 0) == 1 == n + (if x == q then 1 else 0)
  {
    if race.refused != {} { assert race.waiting + race.placed + race.refused <= {p, q}; }
  }

  /** With one unit, the second is admitted only while the first has not inserted. */
  lemma {:induction false} CrowdedByTwo(more: seq<Action>, p: nat, q: nat)
    requires p != q && Admitted(RaceOf(more, {p, q}, 1)) > 1
    ensures BothCountFirst(more, p, q)
    decreases |more|
  {
    hide Advance, Sound, Marks, Admitted;
    NobodyAdmitted();
    var init, a := more[..|more| - 1], more[|more| - 1];
    var race := RaceOf(init, {p, q}, 1);
    RaceSound(init, {p, q}, 1);
    RaceMarks(init, {p, q}, 1, p);
    RaceMarks(init, {p, q}, 1, q);
    if Admitted(race) > 1 {
      CrowdedByTwo(init, p, q);
      var i :| 0 <= i <= |init| && StepsBy(init[..i], p) == 1 == StepsBy(init[..i], q);
      assert init[..i] == more[..i];
    } else {
      AdmitsSecond(race, a.pid, p, q, StepsBy(init, p), StepsBy(init, q));
      assert more[..|more|] == more;
    }
  }

  lemma NobodyAdmitted()
    ensures Admitted(Race({}, {}, {})) == 0
  {
  }

  lemma TwoCrowd(more: seq<Action>, p: nat, q: nat, i: nat)
    requires p != q && i <= |more| && StepsBy(more[..i], p) == 1 == StepsBy(more[..i], q)
    ensures Admitted(RaceOf(more[..i], {p, q}, 1)) > 1
  {
    hide RaceOf, StepsBy;
    var race := RaceOf(more[..i], {p, q}, 1);
    RaceMarks(more[..i], {p, q}, 1, p);
    RaceMarks(more[..i], {p, q}, 1, q);
    RaceSound(more[..i], {p, q}, 1);
    RaceFull(more[..i], {p, q}, 1);
    assert race.placed == {};
    assert race.waiting == {p, q};
  }

  /**
   Two creations that compete for the last unit: at least one of them is confirmed, and both are
   if and only if both count before either inserts.
   */
  lemma LastUnitExactly(actions: seq<Action>, more: seq<Action>, p: nat, q: nat, a: Request, b: Request, r: Resource)
    requires p != q && Rivals(Run(actions), map[p := a, q := b], r, 1) && Proceeds(actions, more, map[p := a, q := b])
    requires StepsBy(more, p) >= 2 && StepsBy(more, q) >= 2
    ensures var w := Run(actions + more);
      && (Confirms(w, a) || Confirms(w, b))
      && (Confirms(w, a) && Confirms(w, b) <==> BothCountFirst(more, p, q))
  {
    hide Run, Rivals, Proceeds, RaceOf, Confirms, StepsBy, Admitted;
    var rivals := map[p := a, q := b];
    assert rivals.Keys == {p, q};
    ConfirmedCount(actions, more, rivals, r, 1);
    var confirmed := Confirmed(Run(actions + more), rivals);
    SubsetSize(confirmed, {p, q});
    if p in confirmed && q in confirmed { assert confirmed == {p, q}; }
    if p !in confirmed { assert confirmed <= {q}; SubsetSize(confirmed, {q}); }
    if q !in confirmed { assert confirmed <= {p}; SubsetSize(confirmed, {p}); }
    if i :| 0 <= i <= |more| && Admitted(RaceOf(more[..i], {p, q}, 1)) > 1 {
      CrowdedByTwo(more[..i], p, q);
      var n :| 0 <= n <= i && StepsBy(more[..i][..n], p) == 1 == StepsBy(more[..i][..n], q);
      assert more[..i][..n] == more[..n];
    }
    if i :| 0 <= i <= |more| && StepsBy(more[..i], p) == 1 == StepsBy(more[..i], q) { TwoCrowd(more, p, q, i); }
  }
}
