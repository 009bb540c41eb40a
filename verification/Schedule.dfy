/**
 Handlers run one after another on one book of reservations: what each does to it, and the
 capacity invariant they keep together.
 */
module Schedule {
  import opened Wrappers
  import opened Timestamp
  import opened Domain
  import opened Idempotency
  import opened Handlers
  import opened Collections

  /** Organization and reservation identifier; organization and resource identifier. */
  type Key = (Id, Id)
  type Book = map<Key, ReservationState>

  predicate Conflicting(r: ReservationState, org: Id, resource: Id, requested: Interval) {
    r.org == org && r.resource == resource && HasConflict(requested, r.interval, r.status)
  }

  function ConflictingKeys(book: Book, org: Id, resource: Id, requested: Interval): set<Key> {
    set k | k in book && Conflicting(book[k], org, resource, requested)
  }

  /** `reserved_unit_count`. */
  function ReservedUnits(book: Book, org: Id, resource: Id, requested: Interval): int {
    ToInt32(|ConflictingKeys(book, org, resource, requested)|)
  }

  /** `has_conflict_excluding`. */
  predicate ConflictExcluding(book: Book, org: Id, resource: Id, requested: Interval, excluded: Id) {
    exists k :: k in book && Conflicting(book[k], org, resource, requested) && book[k].id != excluded
  }

  // ----- Creation -----

  datatype CreateDecision = Decline(status: CreateStatus) | Insert(reservation: ReservationState)

  /** Everything the creation handler decides between claiming a key and persisting. */
  function DecideCreation(book: Book, c: Command, resource: Option<Resource>): CreateDecision {
    match RejectResource(c, resource)
    case Some(status) => Decline(status)
    case None =>
      if FullyReserved(ReservedUnits(book, c.org, c.resource, c.interval), resource.value) then Decline(ScheduleConflict)
      else Insert(Created(c, resource.value.requiresApproval))
  }

  function KeyOf(r: ReservationState): Key { (r.org, r.id) }

  /** The insert fails where the identifier is taken. */
  function AfterCreation(book: Book, c: Command, resource: Option<Resource>): Book {
    match DecideCreation(book, c, resource)
    case Decline(_) => book
    case Insert(r) => if KeyOf(r) in book then book else book[KeyOf(r) := r]
  }

  /** What counts as a conflict: a confirmed reservation of the resource that shares an instant with the interval. */
  lemma ConflictingExactly(book: Book, org: Id, resource: Id, requested: Interval, k: Key)
    ensures k in ConflictingKeys(book, org, resource, requested) <==>
      && k in book && book[k].org == org && book[k].resource == resource && book[k].status == Confirmed
      && exists t: int :: requested.Covers(t) && book[k].interval.Covers(t)
  {
    if k in book { OverlapsExactly(requested, book[k].interval); }
  }

  lemma ExclusionExact(book: Book, org: Id, resource: Id, requested: Interval, excluded: Id)
    ensures ConflictExcluding(book, org, resource, requested, excluded) <==>
      exists k :: k in ConflictingKeys(book, org, resource, requested) && book[k].id != excluded
  {
    hide Conflicting;
    if k :| k in book && Conflicting(book[k], org, resource, requested) && book[k].id != excluded {
      assert k in ConflictingKeys(book, org, resource, requested);
    }
  }

  /**
   What a creation is answered, and what it inserts: a conflict if and only if everything before
   was in order and the counted reservations, cast to `int`, reach the units, cast likewise.
   */
  lemma CreationExact(book: Book, c: Command, resource: Option<Resource>)
    ensures var d, n := DecideCreation(book, c, resource), |ConflictingKeys(book, c.org, c.resource, c.interval)|;
      var known := resource.Some? && resource.value.org == c.org;
      var eligible := known && resource.value.active && Accepts(c.interval, c.kind, c.maintenance);
      && (d == Decline(ResourceNotFound) <==> !known)
      && (d == Decline(ResourceUnavailable) <==> known && !resource.value.active)
      && (d == Decline(PolicyRejected) <==>
            known && resource.value.active && !Accepts(c.interval, c.kind, c.maintenance))
      && (d == Decline(ScheduleConflict) <==> eligible && ToInt32(n) >= ToInt32(resource.value.totalUnits))
      && (d.Insert? <==> eligible && ToInt32(n) < ToInt32(resource.value.totalUnits))
      && (d.Insert? ==>
            && Ordered(d.reservation, c)
            && d.reservation.status == if resource.value.requiresApproval then PendingApproval else Confirmed)
  {
    RejectionExact(c, resource);
    hide RejectResource, ConflictingKeys, ToInt32, Accepts;
  }

  /** A reservation as a command orders it, to which nothing has happened. */
  predicate Ordered(r: ReservationState, c: Command) {
    && r.org == c.org && r.id == c.ids.reservation && r.resource == c.resource && r.creator == c.creator
    && r.interval == c.interval && r.purpose == c.purpose && r.kind == c.kind
    && r.version == 1 && r.approval == None && r.rejection == None && r.cancellation == None
  }

  // ----- Edits -----

  /** The state an edit writes, or the reason it is refused. */
  function DecideEdit(book: Book, c: EditCommand): Result<ReservationState, EditStatus> {
    if (c.org, c.id) !in book then Failure(ReservationNotFound)
    else
      var r := book[(c.org, c.id)];
      DecisionsAreEnabled(c, r);
      match Decide(c, r)
      case Refuse(status) => Failure(status)
      case Apply(t) => Success(Next(r, t))
      case ApplyUnlessConflict(interval, t) =>
        if ConflictExcluding(book, c.org, r.resource, interval, c.id) then Failure(EditScheduleConflict) else Success(Next(r, t))
  }

  /** An edit finds its reservation, is decided on it, and writes what was decided unless another reservation conflicts. */
  lemma EditExact(book: Book, c: EditCommand)
    ensures var d, key: Key := DecideEdit(book, c), (c.org, c.id);
      && (d == Failure(ReservationNotFound) <==> key !in book)
      && (key in book ==>
            var r, decision := book[key], Decide(c, book[key]);
            var conflict := decision.ApplyUnlessConflict?
              && exists k :: k in ConflictingKeys(book, c.org, r.resource, decision.interval) && book[k].id != c.id;
            && (d == Failure(EditScheduleConflict) <==> conflict)
            && (decision.Refuse? ==> d == Failure(decision.status))
            && (d.Success? <==> !decision.Refuse? && !conflict)
            && (d.Success? ==> Enabled(r, decision.transition) && d.value == Next(r, decision.transition)))
  {
    if (c.org, c.id) in book {
      var r := book[(c.org, c.id)];
      DecisionsAreEnabled(c, r);
      RefusalsOfDecide(c, r);
      if Decide(c, r).ApplyUnlessConflict? {
        ExclusionExact(book, c.org, r.resource, Decide(c, r).interval, c.id);
      }
      hide Decide, Next, Enabled, ConflictingKeys, ConflictExcluding;
    }
  }

  function AfterEdit(book: Book, c: EditCommand): Book {
    match DecideEdit(book, c)
    case Failure(_) => book
    case Success(r) => book[(c.org, c.id) := r]
  }

  // ----- Runs -----

  datatype State = State(book: Book, resources: map<Key, Resource>)

  datatype Operation = CreateOne(c: Command) | EditOne(e: EditCommand) | PutResource(resource: Resource)

  /** A resource may change in any way but losing units. */
  predicate MayPut(s: State, r: Resource) {
    var key: Key := (r.org, r.id);
    r.totalUnits >= 1 && (key in s.resources ==> r.totalUnits >= s.resources[key].totalUnits)
  }

  function Lookup(s: State, key: Key): Option<Resource> {
    if key in s.resources then Some(s.resources[key]) else None
  }

  function Step(s: State, op: Operation): State {
    match op
    case CreateOne(c) => s.(book := AfterCreation(s.book, c, Lookup(s, (c.org, c.resource))))
    case EditOne(e) => s.(book := AfterEdit(s.book, e))
    case PutResource(r) => if MayPut(s, r) then s.(resources := s.resources[(r.org, r.id) := r]) else s
  }

  function Steps(ops: seq<Operation>): State
    decreases |ops|
  {
    if ops == [] then State(map[], map[]) else Step(Steps(ops[..|ops| - 1]), ops[|ops| - 1])
  }

  // ----- Capacity -----

  predicate Occupies(r: ReservationState, org: Id, resource: Id, t: int) {
    r.org == org && r.resource == resource && BlocksSchedule(r.status) && r.interval.Covers(t)
  }

  function OccupyingKeys(book: Book, org: Id, resource: Id, t: int): set<Key> {
    set k | k in book && Occupies(book[k], org, resource, t)
  }

  /** The number of confirmed reservations of a resource that cover an instant. */
  function Depth(book: Book, org: Id, resource: Id, t: int): nat {
    |OccupyingKeys(book, org, resource, t)|
  }

  ghost predicate Keyed(s: State) {
    && (forall k :: k in s.book ==> k == KeyOf(s.book[k]) && (s.book[k].org, s.book[k].resource) in s.resources)
    && (forall key :: key in s.resources ==>
          key == (s.resources[key].org, s.resources[key].id) && s.resources[key].totalUnits >= 1)
  }

  ghost predicate WithinCapacity(s: State) {
    forall key, t: int {:trigger Depth(s.book, key.0, key.1, t)} :: key in s.resources ==>
      Depth(s.book, key.0, key.1, t) <= s.resources[key].totalUnits
  }

  /** Whatever covers an instant of the interval overlaps the interval. */
  lemma CoveringConflicts(book: Book, org: Id, resource: Id, requested: Interval, t: int)
    requires requested.Covers(t)
    ensures OccupyingKeys(book, org, resource, t) <= ConflictingKeys(book, org, resource, requested)
    ensures Depth(book, org, resource, t) <= |ConflictingKeys(book, org, resource, requested)|
  {
    SubsetSize(OccupyingKeys(book, org, resource, t), ConflictingKeys(book, org, resource, requested));
  }

  lemma ConflictingAfter(book: Book, k: Key, r: ReservationState, org: Id, resource: Id, interval: Interval)
    ensures ConflictingKeys(book[k := r], org, resource, interval)
            == ConflictingKeys(book, org, resource, interval) - {k} + if Conflicting(r, org, resource, interval) then {k} else {}
  {
    hide Conflicting;
  }

  lemma OccupyingAfter(book: Book, k: Key, r: ReservationState, org: Id, resource: Id, t: int)
    ensures OccupyingKeys(book[k := r], org, resource, t)
            == OccupyingKeys(book, org, resource, t) - {k} + if Occupies(r, org, resource, t) then {k} else {}
  {
    hide Occupies;
  }

  /** Changing one reservation changes the depth only where that reservation is confirmed afterwards. */
  lemma DepthChange(book: Book, k: Key, r: ReservationState, org: Id, resource: Id, t: int)
    ensures var book' := book[k := r];
      && (!Occupies(r, org, resource, t) ==> Depth(book', org, resource, t) <= Depth(book, org, resource, t))
      && (Occupies(r, org, resource, t) ==>
            Depth(book', org, resource, t) <= 1 + |OccupyingKeys(book, org, resource, t) - {k}|)
  {
    var book' := book[k := r];
    var now, was := OccupyingKeys(book', org, resource, t), OccupyingKeys(book, org, resource, t);
    OccupyingAfter(book, k, r, org, resource, t);
    hide Occupies, OccupyingKeys;
    if !Occupies(r, org, resource, t) {
      SubsetSize(now, was);
    }
  }

  /** The cast of a true count below 2^31 is the count. */
  lemma SmallCount(n: nat)
    requires n < 0x8000_0000
    ensures ToInt32(n) == n
  {
  }

  lemma NotFullyReserved(count: nat, resource: Resource)
    requires count < 0x8000_0000 && !FullyReserved(count, resource)
    ensures count < resource.totalUnits
  {
  }

  /** The conditions a run keeps. */
  ghost predicate ScheduleInv(s: State) { Keyed(s) && WithinCapacity(s) }

  /** One reservation replaced or added without exceeding the units of its resource. */
  lemma ChangeKeeps(s: State, k: Key, r: ReservationState)
    requires ScheduleInv(s) && k == KeyOf(r) && (r.org, r.resource) in s.resources
    requires forall t: int {:trigger r.interval.Covers(t)} :: BlocksSchedule(r.status) && r.interval.Covers(t) ==>
      |OccupyingKeys(s.book, r.org, r.resource, t) - {k}| < s.resources[(r.org, r.resource)].totalUnits
    ensures ScheduleInv(s.(book := s.book[k := r]))
  {
    var s' := s.(book := s.book[k := r]);
    forall key, t: int {:trigger Depth(s'.book, key.0, key.1, t)} | key in s'.resources
      ensures Depth(s'.book, key.0, key.1, t) <= s'.resources[key].totalUnits
    {
      hide OccupyingKeys;
      DepthChange(s.book, k, r, key.0, key.1, t);
      assert Depth(s.book, key.0, key.1, t) <= s.resources[key].totalUnits;
      if Occupies(r, key.0, key.1, t) { assert r.interval.Covers(t); }
    }
  }

  /** The count the creation handler casts to 32 bits is small enough to survive the cast. */
  predicate CountFits(book: Book, c: Command) {
    |ConflictingKeys(book, c.org, c.resource, c.interval)| < 0x8000_0000
  }

  /** A creation that passes the count leaves room for itself at every instant of its interval. */
  lemma CreationFits(s: State, c: Command)
    requires ScheduleInv(s) && CountFits(s.book, c)
    requires DecideCreation(s.book, c, Lookup(s, (c.org, c.resource))).Insert?
    ensures var r := DecideCreation(s.book, c, Lookup(s, (c.org, c.resource))).reservation;
      && KeyOf(r) == (c.org, c.ids.reservation) && r.org == c.org && r.resource == c.resource && r.interval == c.interval
      && (c.org, c.resource) in s.resources
      && forall t: int {:trigger r.interval.Covers(t)} :: r.interval.Covers(t) ==>
           |OccupyingKeys(s.book, c.org, c.resource, t)| < s.resources[(c.org, c.resource)].totalUnits
  {
    hide RejectResource, ToInt32, ScheduleInv, OccupyingKeys, ConflictingKeys, FullyReserved;
    var resource := s.resources[(c.org, c.resource)];
    var count := |ConflictingKeys(s.book, c.org, c.resource, c.interval)|;
    SmallCount(count);
    NotFullyReserved(count, resource);
    forall t: int {:trigger c.interval.Covers(t)} | c.interval.Covers(t)
      ensures |OccupyingKeys(s.book, c.org, c.resource, t)| < resource.totalUnits
    {
      CoveringConflicts(s.book, c.org, c.resource, c.interval, t);
    }
  }

  lemma Without<T>(a: set<T>, x: T)
    ensures |a - {x}| <= |a|
  {
    SubsetSize(a - {x}, a);
  }

  lemma CreateKeeps(s: State, c: Command)
    requires ScheduleInv(s) && CountFits(s.book, c)
    ensures ScheduleInv(Step(s, CreateOne(c)))
  {
    hide CountFits, ScheduleInv, DecideCreation, OccupyingKeys;
    var decision := DecideCreation(s.book, c, Lookup(s, (c.org, c.resource)));
    if decision.Insert? && KeyOf(decision.reservation) !in s.book {
      var r := decision.reservation;
      CreationFits(s, c);
      forall t: int {:trigger r.interval.Covers(t)} | r.interval.Covers(t)
        ensures |OccupyingKeys(s.book, r.org, r.resource, t) - {KeyOf(r)}| < s.resources[(r.org, r.resource)].totalUnits
      {
        Without(OccupyingKeys(s.book, r.org, r.resource, t), KeyOf(r));
      }
      ChangeKeeps(s, KeyOf(r), r);
    }
  }

  lemma NextIdentity(r: ReservationState, t: Transition)
    requires Enabled(r, t)
    ensures Next(r, t).org == r.org && Next(r, t).id == r.id && Next(r, t).resource == r.resource
  {
  }

  /** After an edit that confirms or extends, nothing else occupies the interval. */
  lemma EditAlone(s: State, e: EditCommand, t: int)
    requires ScheduleInv(s) && DecideEdit(s.book, e).Success?
    requires var r := DecideEdit(s.book, e).value; BlocksSchedule(r.status) && r.interval.Covers(t)
    ensures var r := DecideEdit(s.book, e).value; OccupyingKeys(s.book, r.org, r.resource, t) - {(e.org, e.id)} == {}
  {
    hide WithinCapacity, Decide, Next, Enabled;
    var before := s.book[(e.org, e.id)];
    var r := DecideEdit(s.book, e).value;
    DecisionsAreEnabled(e, before);
    var d := Decide(e, before);
    assert d.ApplyUnlessConflict?;
    NextIdentity(before, d.transition);
    assert KeyOf(before) == (e.org, e.id);
    forall k | k in s.book && k != (e.org, e.id)
      ensures !Occupies(s.book[k], r.org, r.resource, t)
    {
      assert k == KeyOf(s.book[k]);
      assert s.book[k].id == e.id || !Conflicting(s.book[k], e.org, before.resource, r.interval);
    }
  }

  lemma EditIdentity(s: State, e: EditCommand)
    requires ScheduleInv(s) && DecideEdit(s.book, e).Success?
    ensures var r := DecideEdit(s.book, e).value; KeyOf(r) == (e.org, e.id) && (r.org, r.resource) in s.resources
  {
    hide WithinCapacity, Decide, Next, Enabled;
    var before := s.book[(e.org, e.id)];
    DecisionsAreEnabled(e, before);
    assert (e.org, e.id) == KeyOf(before);
    match Decide(e, before)
    case Refuse(_) =>
    case Apply(t) => NextIdentity(before, t);
    case ApplyUnlessConflict(_, t) => NextIdentity(before, t);
  }

  lemma EditKeeps(s: State, e: EditCommand)
    requires ScheduleInv(s)
    ensures ScheduleInv(Step(s, EditOne(e)))
  {
    hide DecideEdit, OccupyingKeys, Occupies;
    if DecideEdit(s.book, e).Success? {
      var r := DecideEdit(s.book, e).value;
      EditIdentity(s, e);
      forall t: int {:trigger r.interval.Covers(t)} | BlocksSchedule(r.status) && r.interval.Covers(t)
        ensures |OccupyingKeys(s.book, r.org, r.resource, t) - {(e.org, e.id)}| < s.resources[(r.org, r.resource)].totalUnits
      {
        EditAlone(s, e, t);
      }
      ChangeKeeps(s, (e.org, e.id), r);
    }
  }

  lemma PutKeeps(s: State, resource: Resource)
    requires ScheduleInv(s)
    ensures ScheduleInv(Step(s, PutResource(resource)))
  {
    var s', put := Step(s, PutResource(resource)), (resource.org, resource.id);
    forall key, t: int {:trigger Depth(s'.book, key.0, key.1, t)} | key in s'.resources
      ensures Depth(s'.book, key.0, key.1, t) <= s'.resources[key].totalUnits
    {
      if key in s.resources {
        assert Depth(s.book, key.0, key.1, t) <= s.resources[key].totalUnits;
      } else {
        assert OccupyingKeys(s.book, key.0, key.1, t) == {};
      }
    }
  }

  /** Every count a creation of the run casts to 32 bits survives the cast. */
  ghost predicate CountsFit(ops: seq<Operation>) {
    forall i :: 0 <= i < |ops| && ops[i].CreateOne? ==> CountFits(Steps(ops[..i]).book, ops[i].c)
  }

  lemma CountsFitBefore(ops: seq<Operation>)
    requires ops != [] && CountsFit(ops)
    ensures CountsFit(ops[..|ops| - 1])
    ensures ops[|ops| - 1].CreateOne? ==> CountFits(Steps(ops[..|ops| - 1]).book, ops[|ops| - 1].c)
  {
    hide CountFits, Steps;
    var before := ops[..|ops| - 1];
    forall i | 0 <= i < |before| && before[i].CreateOne?
      ensures CountFits(Steps(before[..i]).book, before[i].c)
    {
      assert before[..i] == ops[..i];
    }
  }

  lemma {:induction false} StepsKeep(ops: seq<Operation>)
    requires CountsFit(ops)
    ensures ScheduleInv(Steps(ops))
    decreases |ops|
  {
    if ops != [] {
      hide ScheduleInv, AfterCreation, AfterEdit, CountsFit, CountFits;
      var before, op := ops[..|ops| - 1], ops[|ops| - 1];
      CountsFitBefore(ops);
      StepsKeep(before);
      match op
      case CreateOne(c) => CreateKeeps(Steps(before), c);
      case EditOne(e) => EditKeeps(Steps(before), e);
      case PutResource(r) => PutKeeps(Steps(before), r);
    }
  }

  /**
   Over every serialized run of creations, approvals, rejections, cancellations and extensions
   that never lowers the units of a resource and whose counts survive their cast, no instant has
   more confirmed reservations of a resource than units.
   */
  lemma CapacityHolds(ops: seq<Operation>, key: Key, t: int)
    requires CountsFit(ops) && key in Steps(ops).resources
    ensures Depth(Steps(ops).book, key.0, key.1, t) <= Steps(ops).resources[key].totalUnits
  {
    hide Steps, Depth, CountsFit;
    StepsKeep(ops);
  }

  /** With one unit, confirmed reservations of a resource never overlap. */
  lemma OneUnitDisjoint(ops: seq<Operation>, key: Key, a: Key, b: Key)
    requires CountsFit(ops) && key in Steps(ops).resources && Steps(ops).resources[key].totalUnits == 1
    requires var book := Steps(ops).book;
      && a in book && b in book && a != b
      && book[a].org == book[b].org == key.0 && book[a].resource == book[b].resource == key.1
      && book[a].status.Confirmed? && book[b].status.Confirmed?
    ensures !Steps(ops).book[a].interval.Overlaps(Steps(ops).book[b].interval)
  {
    hide Steps, CountsFit;
    var book := Steps(ops).book;
    if book[a].interval.Overlaps(book[b].interval) {
      var t := if book[a].interval.start < book[b].interval.start then book[b].interval.start else book[a].interval.start;
      CapacityHolds(ops, key, t);
      SubsetSize({a, b}, OccupyingKeys(book, key.0, key.1, t));
    }
  }
}
