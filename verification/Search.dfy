/** Search for available resources, and its agreement with what creation then accepts. */
module Search {
  import opened Wrappers
  import opened Timestamp
  import opened Domain
  import opened Idempotency
  import opened Handlers
  import opened Schedule

  datatype Availability = Availability(resource: Resource, units: nat)

  predicate InScope(r: Resource, org: Id, resourceType: string) {
    r.org == org && r.resourceType == resourceType && r.active
  }

  /** The units left of one resource, as the handler computes them from the counted ones. */
  function UnitsLeft(book: Book, r: Resource, org: Id, interval: Interval): Option<nat> {
    var reserved := ReservedUnits(book, org, r.id, interval);
    var counted := if reserved > 0 then reserved else 0;
    if counted >= r.totalUnits then None else Some(r.totalUnits - counted)
  }

  /**
   The entries for a list of resources, in its order; `None` where the counting query of one in
   scope fails because a bound of the interval cannot be printed.
   */
  function AllAvailable(book: Book, resources: seq<Resource>, org: Id, resourceType: string, interval: Interval)
    : Option<seq<Availability>>
  {
    if resources == [] then Some([])
    else
      var r := resources[|resources| - 1];
      var rest :- AllAvailable(book, resources[..|resources| - 1], org, resourceType, interval);
      if !InScope(r, org, resourceType) then Some(rest)
      else if !PrintableInterval(interval) then None
      else match UnitsLeft(book, r, org, interval)
        case None => Some(rest)
        case Some(units) => Some(rest + [Availability(r, units)])
  }

  /** The counting query; it prints the bounds of the interval first. */
  function CountedUnits(book: Book, org: Id, resource: Id, interval: Interval): Option<int> {
    if PrintableInterval(interval) then Some(ReservedUnits(book, org, resource, interval)) else None
  }

  /** `SearchAvailableResourcesHandler::handle` on what the resource repository returned. */
  method SearchAvailable(book: Book, resources: seq<Resource>, org: Id, resourceType: string, interval: Interval)
    returns (results: Option<seq<Availability>>)
    ensures results == AllAvailable(book, resources, org, resourceType, interval)
  {
    hide Printable, ReservedUnits;
    var listed: seq<Availability> := [];
    var i := 0;
    while i < |resources|
      invariant 0 <= i <= |resources|
      invariant AllAvailable(book, resources[..i], org, resourceType, interval) == Some(listed)
    {
      var r := resources[i];
      assert resources[..i + 1][..i] == resources[..i];
      i := i + 1;
      if r.org != org || r.resourceType != resourceType || !r.active { continue; }
      var reserved := CountedUnits(book, org, r.id, interval);
      if reserved == None {
        FailedSearch(book, resources, org, resourceType, interval, i);
        return None;
      }
      var counted := if reserved.value > 0 then reserved.value else 0;
      if counted >= r.totalUnits { continue; }
      listed := listed + [Availability(r, r.totalUnits - counted)];
    }
    assert resources[..i] == resources;
    results := Some(listed);
  }

  lemma {:induction false} FailedSearch(book: Book, resources: seq<Resource>, org: Id, resourceType: string,
                                        interval: Interval, n: nat)
    requires n <= |resources| && AllAvailable(book, resources[..n], org, resourceType, interval) == None
    ensures AllAvailable(book, resources, org, resourceType, interval) == None
    decreases |resources|
  {
    hide UnitsLeft, InScope, PrintableInterval;
    if n == |resources| {
      assert resources[..n] == resources;
    } else {
      var init := resources[..|resources| - 1];
      assert init[..n] == resources[..n];
      FailedSearch(book, init, org, resourceType, interval, n);
    }
  }

  /** The counting answers, as the handler reads them: casts that come out negative count as none. */
  lemma UnitsLeftExact(book: Book, r: Resource, org: Id, interval: Interval, units: nat)
    ensures var n := |ConflictingKeys(book, org, r.id, interval)| % 0x1_0000_0000;
      var reserved := if n < 0x8000_0000 then n else 0;
      UnitsLeft(book, r, org, interval) == Some(units) <==> reserved < r.totalUnits && units == r.totalUnits - reserved
  {
    hide ConflictingKeys;
  }

  /**
   A search fails if and only if a resource in scope is met and a bound of the interval cannot be
   printed. Otherwise a resource is listed if and only if it was found, is of the organization and
   the type, is active, and has fewer conflicting reservations than units, with the difference.
   */
  lemma {:induction false} ListedExactly(book: Book, resources: seq<Resource>, org: Id, resourceType: string,
                                         interval: Interval, entry: Availability)
    ensures var listed, r := AllAvailable(book, resources, org, resourceType, interval), entry.resource;
      var n := |ConflictingKeys(book, org, r.id, interval)| % 0x1_0000_0000;
      var reserved := if n < 0x8000_0000 then n else 0;
      && (listed == None <==>
            && !(Printable(interval.start) && Printable(interval.end))
            && exists x :: x in resources && x.org == org && x.resourceType == resourceType && x.active)
      && (listed.Some? ==>
            (entry in listed.value <==>
               && r in resources && r.org == org && r.resourceType == resourceType && r.active
               && reserved < r.totalUnits && entry.units == r.totalUnits - reserved))
    decreases |resources|
  {
    UnitsLeftExact(book, entry.resource, org, interval, entry.units);
    hide UnitsLeft, Printable, ConflictingKeys;
    if resources != [] {
      var init, last := resources[..|resources| - 1], resources[|resources| - 1];
      ListedExactly(book, init, org, resourceType, interval, entry);
      assert resources == init + [last];
      assert last in resources && forall r :: r in init ==> r in resources;
    }
  }

  /** Resources are listed in the order they were found. */
  lemma {:induction false} ListedInOrder(book: Book, resources: seq<Resource>, org: Id, resourceType: string,
                                         interval: Interval, i: nat, j: nat)
    requires i < j < |resources| && AllAvailable(book, resources, org, resourceType, interval).Some?
    requires InScope(resources[i], org, resourceType) && UnitsLeft(book, resources[i], org, interval).Some?
    requires InScope(resources[j], org, resourceType) && UnitsLeft(book, resources[j], org, interval).Some?
    ensures var listed := AllAvailable(book, resources, org, resourceType, interval).value;
      exists a, b :: 0 <= a < b < |listed| && listed[a].resource == resources[i] && listed[b].resource == resources[j]
  {
    hide UnitsLeft, InScope, PrintableInterval;
    var whole := AllAvailable(book, resources, org, resourceType, interval).value;
    PrefixListed(book, resources, org, resourceType, interval, j + 1);
    assert resources[..j + 1][..j] == resources[..j];
    PrefixListed(book, resources[..j + 1], org, resourceType, interval, i + 1);
    assert resources[..j + 1][..i + 1] == resources[..i + 1] && resources[..i + 1][..i] == resources[..i];
    PrefixListed(book, resources[..j], org, resourceType, interval, i + 1);
    assert resources[..j][..i + 1] == resources[..i + 1];
    var a := |AllAvailable(book, resources[..i + 1], org, resourceType, interval).value| - 1;
    var b := |AllAvailable(book, resources[..j + 1], org, resourceType, interval).value| - 1;
    assert whole[a].resource == resources[i] && whole[b].resource == resources[j];
  }

  lemma {:induction false} PrefixListed(book: Book, resources: seq<Resource>, org: Id, resourceType: string,
                                        interval: Interval, n: nat)
    requires n <= |resources| && AllAvailable(book, resources, org, resourceType, interval).Some?
    ensures AllAvailable(book, resources[..n], org, resourceType, interval).Some?
    ensures AllAvailable(book, resources[..n], org, resourceType, interval).value
            <= AllAvailable(book, resources, org, resourceType, interval).value
    decreases |resources|
  {
    hide UnitsLeft, InScope, PrintableInterval;
    if n == |resources| {
      assert resources[..n] == resources;
    } else {
      var init := resources[..|resources| - 1];
      assert init[..n] == resources[..n];
      PrefixListed(book, init, org, resourceType, interval, n);
    }
  }

  /** What search offers never exceeds the units free at any instant of the interval. */
  lemma OfferWithinPeak(book: Book, r: Resource, interval: Interval, t: int)
    requires |ConflictingKeys(book, r.org, r.id, interval)| < 0x8000_0000 && interval.Covers(t)
    requires UnitsLeft(book, r, r.org, interval).Some?
    ensures UnitsLeft(book, r, r.org, interval).value <= r.totalUnits - Depth(book, r.org, r.id, t)
  {
    hide ConflictingKeys, Depth, ToInt32;
    SmallCount(|ConflictingKeys(book, r.org, r.id, interval)|);
    CoveringConflicts(book, r.org, r.id, interval, t);
  }

  // ----- Agreement with creation -----

  /** A command for one unit of the resource that the creation policy confirms at once. */
  predicate Orders(c: Command, r: Resource, interval: Interval) {
    && c.org == r.org && c.resource == r.id && c.interval == interval
    && EvaluateCreation(r, interval, c.kind, c.maintenance) == ConfirmCreation
  }

  function AfterAll(book: Book, cs: seq<Command>, r: Resource): Book
    decreases |cs|
  {
    if cs == [] then book else AfterCreation(AfterAll(book, cs[..|cs| - 1], r), cs[|cs| - 1], Some(r))
  }

  predicate NewKeys(book: Book, cs: seq<Command>, r: Resource) {
    && (forall i :: 0 <= i < |cs| ==> (r.org, cs[i].ids.reservation) !in book)
    && (forall i, j :: 0 <= i < j < |cs| ==> cs[i].ids.reservation != cs[j].ids.reservation)
  }

  lemma OrderDecision(book: Book, c: Command, r: Resource, interval: Interval)
    requires Orders(c, r, interval) && r.totalUnits < 0x8000_0000
    requires |ConflictingKeys(book, r.org, r.id, interval)| < 0x8000_0000
    ensures DecideCreation(book, c, Some(r)) ==
      if |ConflictingKeys(book, r.org, r.id, interval)| >= r.totalUnits then Decline(ScheduleConflict)
      else Insert(Created(c, false))
  {
    hide ConflictingKeys, Created, EvaluatePolicy;
    SmallCount(|ConflictingKeys(book, r.org, r.id, interval)|);
    SmallCount(r.totalUnits);
  }

  lemma OneMore(book: Book, c: Command, r: Resource, interval: Interval)
    requires Orders(c, r, interval) && (c.org, c.ids.reservation) !in book
    ensures var book' := book[(c.org, c.ids.reservation) := Created(c, false)];
      |ConflictingKeys(book', r.org, r.id, interval)| == |ConflictingKeys(book, r.org, r.id, interval)| + 1
  {
    var k: Key := (c.org, c.ids.reservation);
    var book' := book[k := Created(c, false)];
    assert Conflicting(book'[k], r.org, r.id, interval);
    hide Conflicting;
    assert ConflictingKeys(book', r.org, r.id, interval) == ConflictingKeys(book, r.org, r.id, interval) + {k};
  }

  /** The book with one reservation more for each command. */
  ghost predicate Extended(book: Book, book': Book, cs: seq<Command>, r: Resource) {
    && (forall k :: k in book' ==> k in book || k in set i | 0 <= i < |cs| :: (r.org, cs[i].ids.reservation))
    && (forall i :: 0 <= i < |cs| ==> Stored(book', r, cs[i]))
  }

  predicate Stored(book: Book, r: Resource, c: Command) {
    var k: Key := (r.org, c.ids.reservation);
    k in book && book[k] == Created(c, false)
  }

  lemma ExtendOne(book: Book, mid: Book, cs: seq<Command>, r: Resource)
    requires cs != [] && NewKeys(book, cs, r) && Extended(book, mid, cs[..|cs| - 1], r)
    ensures var k: Key := (r.org, cs[|cs| - 1].ids.reservation);
      k !in mid && Extended(book, mid[k := Created(cs[|cs| - 1], false)], cs, r)
  {
    hide Created;
    var init, c := cs[..|cs| - 1], cs[|cs| - 1];
    var k: Key := (r.org, c.ids.reservation);
    var book' := mid[k := Created(c, false)];
    forall i | 0 <= i < |cs|
      ensures Stored(book', r, cs[i])
    {
      if i < |init| { assert Stored(mid, r, init[i]); }
    }
  }

  /** As long as units are left, every order is confirmed and takes one of them. */
  lemma {:induction false} OrdersTake(book: Book, cs: seq<Command>, r: Resource, interval: Interval)
    requires forall i :: 0 <= i < |cs| ==> Orders(cs[i], r, interval)
    requires NewKeys(book, cs, r) && r.totalUnits < 0x8000_0000
    requires |ConflictingKeys(book, r.org, r.id, interval)| + |cs| <= r.totalUnits
    ensures var book' := AfterAll(book, cs, r);
      && |ConflictingKeys(book', r.org, r.id, interval)| == |ConflictingKeys(book, r.org, r.id, interval)| + |cs|
      && Extended(book, book', cs, r)
    decreases |cs|
  {
    hide ConflictingKeys, Orders, DecideCreation, Created, NewKeys, Extended;
    if cs == [] {
      NothingExtended(book, r);
    } else {
      var init, c := cs[..|cs| - 1], cs[|cs| - 1];
      FewerKeys(book, cs, r, |cs| - 1);
      OrdersTake(book, init, r, interval);
      var mid := AfterAll(book, init, r);
      assert Orders(c, r, interval);
      OrderKey(c, r, interval);
      ExtendOne(book, mid, cs, r);
      OrderDecision(mid, c, r, interval);
      OneMore(mid, c, r, interval);
    }
  }

  lemma NothingExtended(book: Book, r: Resource)
    ensures Extended(book, book, [], r)
  {
  }

  lemma FewerKeys(book: Book, cs: seq<Command>, r: Resource, n: nat)
    requires NewKeys(book, cs, r) && n <= |cs|
    ensures NewKeys(book, cs[..n], r)
  {
  }

  lemma OrderKey(c: Command, r: Resource, interval: Interval)
    requires Orders(c, r, interval)
    ensures c.org == r.org && KeyOf(Created(c, false)) == (c.org, c.ids.reservation) && Created(c, false).status.Confirmed?
  {
  }

  /**
   Search and creation agree: if search offers n units of a resource that needs no approval,
   then n creations with fresh identifiers are all confirmed and one more is a schedule conflict.
   */
  lemma SearchAgreesWithCreation(book: Book, r: Resource, interval: Interval, cs: seq<Command>, i: nat)
    requires UnitsLeft(book, r, r.org, interval) == Some(|cs| - 1) && i < |cs|
    requires forall j :: 0 <= j < |cs| ==> Orders(cs[j], r, interval)
    requires NewKeys(book, cs, r) && r.totalUnits < 0x8000_0000
    requires |ConflictingKeys(book, r.org, r.id, interval)| < 0x8000_0000
    ensures var decision := DecideCreation(AfterAll(book, cs[..i], r), cs[i], Some(r));
      if i < |cs| - 1 then decision == Insert(Created(cs[i], false)) && decision.reservation.status.Confirmed?
      else decision == Decline(ScheduleConflict)
  {
    hide ConflictingKeys, DecideCreation, Created, ToInt32, NewKeys, Extended;
    SmallCount(|ConflictingKeys(book, r.org, r.id, interval)|);
    assert |ConflictingKeys(book, r.org, r.id, interval)| + (|cs| - 1) == r.totalUnits;
    hide UnitsLeft, Orders;
    FewerKeys(book, cs, r, i);
    OrdersTake(book, cs[..i], r, interval);
    OrderDecision(AfterAll(book, cs[..i], r), cs[i], r, interval);
    OrderKey(cs[i], r, interval);
  }
}
