/** What holds of a reservation after any number of transitions from its creation. */
module Lifecycle {
  import opened Wrappers
  import opened Timestamp
  import opened Domain

  predicate IsCreation(r: ReservationState) {
    && (r.status.PendingApproval? || r.status.Confirmed?) && r.version == 1
    && r.approval == None && r.rejection == None && r.cancellation == None
  }

  /** A sequence of transitions that may be applied to `start` one after another. */
  predicate Legal(start: ReservationState, ts: seq<Transition>)
    decreases |ts|, 0
  {
    ts == [] || (var n := |ts| - 1; Legal(start, ts[..n]) && Enabled(After(start, ts[..n]), ts[n]))
  }

  function After(start: ReservationState, ts: seq<Transition>): ReservationState
    requires Legal(start, ts)
    decreases |ts|, 1
  {
    if ts == [] then start else Next(After(start, ts[..|ts| - 1]), ts[|ts| - 1])
  }

  /** The events released over the transitions, oldest first. */
  function Log(start: ReservationState, ts: seq<Transition>): (events: seq<Event>)
    requires Legal(start, ts)
    ensures |events| == |ts|
    decreases |ts|
  {
    if ts == [] then []
    else Log(start, ts[..|ts| - 1]) + [Emitted(After(start, ts[..|ts| - 1]), ts[|ts| - 1])]
  }

  /** Which decision records accompany which status. */
  predicate Consistent(r: ReservationState) {
    match r.status
    case PendingApproval => r.approval == None && r.rejection == None && r.cancellation == None
    case Confirmed => r.rejection == None && r.cancellation == None
    case Rejected => r.approval == None && r.rejection.Some? && r.cancellation == None
    case Cancelled => r.rejection == None && r.cancellation.Some?
    case Expired => r.rejection == None && r.cancellation == None
    case Completed => r.rejection == None && r.cancellation == None
  }

  /** A state that a reservation created as `start` has once anything has happened to it. */
  predicate Departed(start: ReservationState, r: ReservationState) {
    IsTerminal(r.status) || (r.status.Confirmed? && (r.approval.Some? || r.interval.end > start.interval.end))
  }

  /** The identity of a reservation, which nothing changes. */
  predicate SameIdentity(start: ReservationState, r: ReservationState) {
    && r.org == start.org && r.id == start.id && r.resource == start.resource && r.creator == start.creator
    && r.purpose == start.purpose && r.kind == start.kind && r.interval.start == start.interval.start
    && r.interval.end >= start.interval.end
  }

  /** The first transition departs from the creation state for good. */
  lemma DepartureStep(start: ReservationState, r: ReservationState, t: Transition)
    requires IsCreation(start) && Enabled(r, t)
    requires r == start || Departed(start, r)
    requires SameIdentity(start, r) && Consistent(r)
    ensures Departed(start, Next(r, t)) && SameIdentity(start, Next(r, t)) && Consistent(Next(r, t))
  {
  }

  lemma {:induction false} DepartureAfter(start: ReservationState, ts: seq<Transition>)
    requires IsCreation(start) && Legal(start, ts)
    ensures SameIdentity(start, After(start, ts)) && Consistent(After(start, ts))
    ensures ts != [] ==> Departed(start, After(start, ts))
    decreases |ts|
  {
    if ts != [] {
      var n := |ts| - 1;
      DepartureAfter(start, ts[..n]);
      DepartureStep(start, After(start, ts[..n]), ts[n]);
    }
  }

  /** `version` counts transitions modulo 2^64. */
  lemma VersionStep(n: nat)
    ensures NextVersion(n % UINT64_LIMIT) == (n + 1) % UINT64_LIMIT
  {
  }

  lemma VersionMoves(r: ReservationState, t: Transition)
    requires Enabled(r, t)
    ensures Next(r, t).version == NextVersion(r.version)
  {
  }

  lemma {:induction false} VersionAfter(start: ReservationState, ts: seq<Transition>)
    requires IsCreation(start) && Legal(start, ts)
    ensures After(start, ts).version == (1 + |ts|) % UINT64_LIMIT
    decreases |ts|
  {
    if ts != [] {
      hide Next, Enabled, IsCreation;
      var n := |ts| - 1;
      VersionAfter(start, ts[..n]);
      VersionMoves(After(start, ts[..n]), ts[n]);
      VersionStep(|ts|);
    }
  }

  /** Every extension moves the end, and only two other transitions fit in one life. */
  lemma {:induction false} TransitionBound(start: ReservationState, ts: seq<Transition>)
    requires IsCreation(start) && Legal(start, ts)
    ensures var r := After(start, ts);
      |ts| <= r.interval.end - start.interval.end + (if r.approval.Some? then 1 else 0) + (if IsTerminal(r.status) then 1 else 0)
    decreases |ts|
  {
    if ts != [] {
      var n := |ts| - 1;
      TransitionBound(start, ts[..n]);
      DepartureAfter(start, ts[..n]);
    }
  }

  /** So the version never wraps while the interval is shorter than 2^64 - 4 nanoseconds. */
  lemma VersionNeverWraps(start: ReservationState, ts: seq<Transition>)
    requires IsCreation(start) && Legal(start, ts)
    requires After(start, ts).interval.end - start.interval.start < UINT64_LIMIT - 3
    ensures After(start, ts).version == 1 + |ts|
  {
    VersionAfter(start, ts);
    TransitionBound(start, ts);
  }

  lemma {:induction false} TerminalAbsorbs(start: ReservationState, ts: seq<Transition>)
    requires Legal(start, ts) && IsTerminal(start.status)
    ensures ts == []
    decreases |ts|
  {
    if ts != [] {
      TerminalAbsorbs(start, ts[..|ts| - 1]);
    }
  }

  // ----- What a transition changes, and what its event carries -----

  /** The states each transition leaves, the state it reaches, and the one thing it records. */
  lemma TransitionExact(r: ReservationState, t: Transition)
    ensures Enabled(r, t) <==>
      if t.Approve? || t.Reject? then r.status == PendingApproval
      else if t.Cancel? || t.Expire? then r.status == PendingApproval || r.status == Confirmed
      else r.status == Confirmed && (t.Extend? ==> r.interval.end < t.newEnd)
    ensures Enabled(r, t) ==>
      var after := Next(r, t);
      && (after.org, after.id, after.resource, after.creator, after.purpose, after.kind)
         == (r.org, r.id, r.resource, r.creator, r.purpose, r.kind)
      && after.interval.start == r.interval.start
      && after.interval.end == (if t.Extend? then t.newEnd else r.interval.end)
      && after.version == (r.version + 1) % 0x1_0000_0000_0000_0000
      && after.approval == (if t.Approve? then Some(ApprovalInfo(t.actor, t.at)) else r.approval)
      && after.rejection == (if t.Reject? then Some(RejectionInfo(t.actor, t.at, t.reason)) else r.rejection)
      && after.cancellation == (if t.Cancel? then Some(CancellationInfo(t.actor, t.at, t.reason)) else r.cancellation)
    ensures Enabled(r, t) ==>
      match t
      case Approve(_, _, _) => Next(r, t).status == Confirmed
      case Reject(_, _, _, _) => Next(r, t).status == Rejected
      case Cancel(_, _, _, _) => Next(r, t).status == Cancelled
      case Extend(_, _, _, _) => Next(r, t).status == Confirmed
      case Expire(_, _) => Next(r, t).status == Expired
      case Complete(_, _) => Next(r, t).status == Completed
  {
  }

  /** The event is of this reservation, with its own identifier and time. */
  predicate Concerns(e: Event, r: ReservationState, eventId: Id, at: Instant) {
    e.eventId == eventId && e.at == at && e.org == r.org && e.id == r.id && e.resource == r.resource
  }

  /** What the event of a transition carries of the transition and of the reservation it happened to. */
  predicate Carries(e: Event, r: ReservationState, t: Transition) {
    && Concerns(e, r, t.eventId, t.at)
    && match t
       case Approve(actor, _, _) => e.ReservationConfirmed? && e.confirmedBy == Some(actor) && e.interval == r.interval
       case Reject(actor, _, _, _) => e.ReservationRejected? && e.rejectedBy == actor
       case Cancel(actor, _, _, reason) =>
         e.ReservationCancelled? && e.cancelledBy == actor && e.previousStatus == r.status && e.reason == reason
       case Extend(newEnd, actor, _, _) =>
         && e.ReservationExtended? && e.extendedBy == actor && e.previous == r.interval
         && e.extended.start == r.interval.start && e.extended.end == newEnd
       case Expire(_, _) => e.ReservationExpired? && e.previousStatus == r.status
       case Complete(_, _) => e.ReservationCompleted? && e.interval == r.interval
  }

  lemma EmittedCarries(r: ReservationState, t: Transition)
    requires Enabled(r, t)
    ensures Carries(Emitted(r, t), r, t)
  {
  }

  /** Every event of a life carries the transition it records and the state that transition found. */
  lemma {:induction false} LogCarries(start: ReservationState, ts: seq<Transition>, i: nat)
    requires Legal(start, ts) && i < |ts|
    ensures Legal(start, ts[..i]) && Carries(Log(start, ts)[i], After(start, ts[..i]), ts[i])
    decreases |ts|
  {
    hide Emitted, Carries, Enabled, Next;
    var n := |ts| - 1;
    if i < n {
      LogCarries(start, ts[..n], i);
      assert ts[..n][..i] == ts[..i];
    } else {
      EmittedCarries(After(start, ts[..n]), ts[n]);
    }
  }

  /** What the two events of a creation carry of the reservation. */
  predicate TellsCreation(first: Event, second: Event, r: ReservationState, createdId: Id, secondId: Id, at: Instant)
    requires at < INT64_MAX
  {
    && Concerns(first, r, createdId, at) && first.ReservationCreated?
    && first.createdBy == r.creator && first.interval == r.interval && first.kind == r.kind && first.initialStatus == r.status
    && Concerns(second, r, secondId, at + 1)
    && if r.status == PendingApproval
       then second.ReservationApprovalRequested? && second.requestedBy == r.creator && second.interval == r.interval
            && second.kind == r.kind
       else second.ReservationConfirmed? && second.interval == r.interval && second.confirmedBy == None
  }

  lemma CreationCarries(r: ReservationState, createdId: Id, secondId: Id, at: Instant)
    requires at < INT64_MAX
    ensures var events := CreationEvents(r, createdId, secondId, at);
      |events| == 2 && TellsCreation(events[0], events[1], r, createdId, secondId, at)
  {
  }

  // ----- Rebuilding a reservation from its events -----

  /** What the events of a reservation carry: everything but the purpose and the reason of a rejection. */
  datatype Projection = Projection(
    org: Id, id: Id, resource: Id, creator: Id, interval: Interval, kind: Kind, status: Status,
    approval: Option<ApprovalInfo>, rejection: Option<ApprovalInfo>, cancellation: Option<CancellationInfo>,
    version: UInt64)

  function Project(r: ReservationState): Projection {
    var rejection := if r.rejection == None then None else Some(ApprovalInfo(r.rejection.value.actor, r.rejection.value.at));
    Projection(r.org, r.id, r.resource, r.creator, r.interval, r.kind, r.status,
               r.approval, rejection, r.cancellation, r.version)
  }

  /** A reader of the event stream: the creation event starts a projection, the later ones change it. */
  function Observe(p: Projection, e: Event): Projection {
    var changed := p.(version := NextVersion(p.version));
    match e
    case ReservationCreated(_, _, org, id, resource, createdBy, interval, kind, initialStatus) =>
      Projection(org, id, resource, createdBy, interval, kind, initialStatus, None, None, None, 1)
    case ReservationApprovalRequested(_, _, _, _, _, _, _, _) => p
    case ReservationConfirmed(_, at, _, _, _, _, confirmedBy) =>
      if confirmedBy == None then p
      else changed.(status := Confirmed, approval := Some(ApprovalInfo(confirmedBy.value, at)))
    case ReservationRejected(_, at, _, _, _, actor) =>
      changed.(status := Rejected, rejection := Some(ApprovalInfo(actor, at)))
    case ReservationCancelled(_, at, _, _, _, actor, _, reason) =>
      changed.(status := Cancelled, cancellation := Some(CancellationInfo(actor, at, reason)))
    case ReservationExtended(_, _, _, _, _, _, _, extended) => changed.(interval := extended)
    case ReservationExpired(_, _, _, _, _, _) => changed.(status := Expired)
    case ReservationCompleted(_, _, _, _, _, _) => changed.(status := Completed)
  }

  function Fold(p: Projection, events: seq<Event>): Projection
    decreases |events|
  {
    if events == [] then p else Observe(Fold(p, events[..|events| - 1]), events[|events| - 1])
  }

  lemma ObserveEmitted(r: ReservationState, t: Transition)
    requires Enabled(r, t)
    ensures Observe(Project(r), Emitted(r, t)) == Project(Next(r, t))
  {
  }

  lemma ObserveCreation(start: ReservationState, createdId: Id, secondId: Id, at: Instant, p: Projection)
    requires IsCreation(start) && at < INT64_MAX
    ensures Fold(p, CreationEvents(start, createdId, secondId, at)) == Project(start)
  {
    var creation := CreationEvents(start, createdId, secondId, at);
    assert creation[..1] == [creation[0]] && creation[..1][..0] == [];
    assert Fold(p, creation[..1]) == Observe(p, creation[0]);
  }

  /** The events of a reservation's life, read from any starting point, rebuild it. */
  lemma {:induction false} EventsRebuild(start: ReservationState, ts: seq<Transition>, createdId: Id, secondId: Id,
                                         at: Instant, p: Projection)
    requires IsCreation(start) && Legal(start, ts) && at < INT64_MAX
    ensures Fold(p, CreationEvents(start, createdId, secondId, at) + Log(start, ts)) == Project(After(start, ts))
    decreases |ts|
  {
    var creation := CreationEvents(start, createdId, secondId, at);
    var events := creation + Log(start, ts);
    if ts == [] {
      assert events == creation;
      ObserveCreation(start, createdId, secondId, at, p);
    } else {
      hide CreationEvents, Emitted, Enabled, Next, Observe, Project, IsCreation;
      var n := |ts| - 1;
      EventsRebuild(start, ts[..n], createdId, secondId, at, p);
      assert Log(start, ts) == Log(start, ts[..n]) + [Emitted(After(start, ts[..n]), ts[n])];
      assert events[..|events| - 1] == creation + Log(start, ts[..n]);
      ObserveEmitted(After(start, ts[..n]), ts[n]);
    }
  }

  /** The reason of a rejection is not in the stream: two rejections differing in it emit the same event. */
  lemma RejectionReasonIsLost(r: ReservationState, actor: Id, at: Instant, eventId: Id)
    requires r.status.PendingApproval?
    ensures var t, u := Reject(actor, at, eventId, None), Reject(actor, at, eventId, Some("busy"));
      Emitted(r, t) == Emitted(r, u) && Next(r, t) != Next(r, u)
  {
  }
}
