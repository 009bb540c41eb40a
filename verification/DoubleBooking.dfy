/**
 Capacity is not kept by concurrent handlers: counting and inserting are separate steps, and
 the transaction contains inserts only. Two creations that both count before either inserts
 overbook a resource of one unit.
 */
module DoubleBooking {
  import opened Wrappers
  import opened Timestamp
  import opened Domain
  import opened Idempotency
  import opened Handlers
  import opened World
  import Invariant = SystemInvariant
  import Steps = CreationSteps
  import R = Runs

  /** Two commands by different callers or keys for overlapping intervals of one resource with one unit. */
  predicate Rivals(a: Command, b: Command, resource: Resource) {
    && a.Fits() && b.Fits() && a.ScopeOf() != b.ScopeOf() && !SharesId(Prepare(b), Prepare(a))
    && a.org == b.org && a.resource == b.resource && a.interval.Overlaps(b.interval)
    && RejectResource(a, Some(resource)) == None && RejectResource(b, Some(resource)) == None
    && !resource.requiresApproval && resource.totalUnits == 1
  }

  function Start(a: Command, b: Command): seq<Action> {
    [SubmitCreate(0, a), SubmitCreate(1, b), StepCreate(0, Works, None, 0), StepCreate(1, Works, None, 0)]
  }

  /** Both handlers read the resource and count, before either has inserted anything. */
  function Count(resource: Resource): seq<Action> {
    [StepCreate(0, Works, Some(resource), 0), StepCreate(1, Works, Some(resource), 0), StepCreate(0, Works, None, 0),
     StepCreate(1, Works, None, 0)]
  }

  predicate BothAt(w: World, a: Request, b: Request, pcA: CreatePc, pcB: CreatePc) {
    Steps.Runs(w, 0, a, pcA) && Steps.Runs(w, 1, b, pcB)
  }

  predicate NothingStored(w: World) { w.ledger.reservations == map[] && w.outbox.entries == map[] }

  lemma Starts(a: Command, b: Command, resource: Resource)
    requires Rivals(a, b, resource)
    ensures var w := R.Play(Initial, Start(a, b));
      BothAt(w, Prepare(a), Prepare(b), ReadingResource, ReadingResource) && NothingStored(w)
  {
    hide R.Play, RejectResource, SharesId, ProcessingRecord;
    var s, ra, rb := Start(a, b), Prepare(a), Prepare(b);
    R.PlayFour(Initial, s[0], s[1], s[2], s[3]);
    Invariant.PreparedCommand(a);
    Invariant.PreparedCommand(b);
    PreparedAgree(a, b);
    assert ra.documentKey != rb.documentKey;
    hide Prepare;
    var w1 := Act(Initial, s[0]);
    assert Steps.Runs(w1, 0, ra, Claiming);
    var w2 := Act(w1, s[1]);
    assert BothAt(w2, ra, rb, Claiming, Claiming);
    var w3 := Act(w2, s[2]);
    assert BothAt(w3, ra, rb, ReadingResource, Claiming);
  }

  lemma Counts(w: World, a: Request, b: Request, resource: Resource)
    requires BothAt(w, a, b, ReadingResource, ReadingResource) && NothingStored(w)
    requires RejectResource(a.cmd, Some(resource)) == None && RejectResource(b.cmd, Some(resource)) == None
    requires !resource.requiresApproval && resource.totalUnits == 1
    ensures var w' := R.Play(w, Count(resource)); BothAt(w', a, b, Persisting(false), Persisting(false)) && NothingStored(w')
  {
    hide R.Play, RejectResource;
    var s := Count(resource);
    R.PlayFour(w, s[0], s[1], s[2], s[3]);
    var w1 := Act(w, s[0]);
    assert BothAt(w1, a, b, Counting(resource), ReadingResource);
    var w2 := Act(w1, s[1]);
    assert BothAt(w2, a, b, Counting(resource), Counting(resource));
    assert !FullyReserved(0, resource);
    var w3 := Act(w2, s[2]);
    assert BothAt(w3, a, b, Persisting(false), Counting(resource));
  }

  function Insert(): seq<Action> { [StepCreate(0, Works, None, 0), StepCreate(1, Works, None, 0)] }

  lemma Inserts(w: World, a: Request, b: Request)
    requires BothAt(w, a, b, Persisting(false), Persisting(false)) && NothingStored(w) && !SharesId(b, a)
    ensures var w' := R.Play(w, Insert()); var keyA, keyB := KeyOfReservation(a), KeyOfReservation(b);
      && keyA != keyB && keyA in w'.ledger.reservations && keyB in w'.ledger.reservations
      && w'.ledger.reservations[keyA].doc == Created(a.cmd, false) && w'.ledger.reservations[keyB].doc == Created(b.cmd, false)
  {
    hide Created, CreatedEvents, NewEntry;
    var s := Insert();
    var w1 := Act(w, s[0]);
    var w2 := Act(w1, s[1]);
    assert s[1..] == [s[1]] && s[1..][1..] == [];
    assert R.Play(w, s) == R.Play(w1, s[1..]);
    assert R.Play(w1, s[1..]) == R.Play(w2, []);
    var keysA, keysB := KeysOfEvents(Creation(a, false)), KeysOfEvents(Creation(b, false));
    DistinctEvents(a, b);
    assert Steps.Runs(w1, 1, b, Persisting(false));
  }

  lemma DistinctEvents(a: Request, b: Request)
    requires !SharesId(b, a)
    ensures var keysA, keysB := KeysOfEvents(Creation(a, false)), KeysOfEvents(Creation(b, false));
      keysA.0 != keysB.0 && keysA.0 != keysB.1 && keysA.1 != keysB.0 && keysA.1 != keysB.1
    ensures KeyOfReservation(a) != KeyOfReservation(b)
  {
    var idsA, idsB := a.cmd.ids, b.cmd.ids;
    if idsA.createdEvent in idsB.EventIds() { Steps.EventIdsIntersect(b, a, idsA.createdEvent); }
    if idsA.confirmedEvent in idsB.EventIds() { Steps.EventIdsIntersect(b, a, idsA.confirmedEvent); }
  }

  /** A run of two creation handlers, each answered a true count of zero, that confirms overlapping reservations of one unit. */
  lemma ConcurrentCreationsOverbook(a: Command, b: Command, resource: Resource)
    requires Rivals(a, b, resource)
    ensures var counted, w := Run(Start(a, b) + Count(resource)), Run(Start(a, b) + Count(resource) + Insert());
      var keyA, keyB := KeyOfReservation(Prepare(a)), KeyOfReservation(Prepare(b));
      && counted.ledger.reservations == map[]
      && keyA != keyB && keyA in w.ledger.reservations && keyB in w.ledger.reservations
      && var first, second := w.ledger.reservations[keyA].doc, w.ledger.reservations[keyB].doc;
         && first.status.Confirmed? && second.status.Confirmed? && first.org == second.org
         && first.resource == second.resource && first.interval.Overlaps(second.interval)
  {
    hide Act, R.Play, Prepare, RejectResource, SharesId;
    var start, count := Start(a, b), Count(resource);
    assert [] + start == start;
    R.RunThenPlay([], start);
    R.RunThenPlay(start, count);
    R.RunThenPlay(start + count, Insert());
    Invariant.PreparedCommand(a);
    Invariant.PreparedCommand(b);
    Starts(a, b, resource);
    Counts(Run(start), Prepare(a), Prepare(b), resource);
    Inserts(Run(start + count), Prepare(a), Prepare(b));
  }
}
