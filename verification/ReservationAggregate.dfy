/**
 The reservation aggregate as an object: factories and transitions that update its fields and
 append to its list of domain events, each tied to the transition function of `Domain`.
 */
module ReservationAggregate {
  import opened Wrappers
  import opened Timestamp
  import opened Domain

  datatype TransitionError = NotPending | AlreadyTerminal | NotConfirmed | EndNotForward

  /** What a transition method does to the state and the events, when it succeeds and when it refuses. */
  predicate Transitioned(before: ReservationState, after: ReservationState, log: seq<Event>, log': seq<Event>,
                         t: Transition, error: Option<TransitionError>) {
    && (error == None <==> Enabled(before, t))
    && if error == None then after == Next(before, t) && log' == log + [Emitted(before, t)]
       else after == before && log' == log
  }

  class Reservation {
    const org: Id
    const id: Id
    const resource: Id
    const createdBy: Id
    const purpose: string
    const kind: Kind
    var interval: Interval
    var status: Status
    var approval: Option<ApprovalInfo>
    var rejection: Option<RejectionInfo>
    var cancellation: Option<CancellationInfo>
    var version: UInt64
    var domainEvents: seq<Event>

    function State(): ReservationState
      reads this
    {
      ReservationState(org, id, resource, createdBy, interval, purpose, kind, status, approval, rejection, cancellation,
                       version)
    }

    constructor (state: ReservationState)
      ensures State() == state && domainEvents == []
    {
      org, id, resource, createdBy := state.org, state.id, state.resource, state.creator;
      interval, purpose, kind, status := state.interval, state.purpose, state.kind, state.status;
      approval, rejection, cancellation := state.approval, state.rejection, state.cancellation;
      version, domainEvents := state.version, [];
    }

    /** The second event is one nanosecond later, so that instant must be representable. */
    static method CreateConfirmed(org: Id, id: Id, resource: Id, createdBy: Id, interval: Interval, purpose: string,
                                  kind: Kind, createdEventId: Id, confirmedEventId: Id, occurredAt: Instant)
      returns (r: Reservation)
      requires occurredAt < INT64_MAX
      ensures fresh(r) && r.State() == CreationState(org, id, resource, createdBy, interval, purpose, kind, false)
      ensures r.domainEvents == CreationEvents(r.State(), createdEventId, confirmedEventId, occurredAt)
    {
      r := new Reservation(ReservationState(org, id, resource, createdBy, interval, purpose, kind, Confirmed, None, None,
                                            None, 1));
      r.domainEvents := r.domainEvents + [ReservationCreated(createdEventId, occurredAt, r.org, r.id, r.resource,
                                                             r.createdBy, r.interval, r.kind, r.status)];
      r.domainEvents := r.domainEvents + [ReservationConfirmed(confirmedEventId, occurredAt + 1, r.org, r.id, r.resource,
                                                               r.interval, None)];
    }

    static method CreatePendingApproval(org: Id, id: Id, resource: Id, createdBy: Id, interval: Interval, purpose: string,
                                        kind: Kind, createdEventId: Id, requestedEventId: Id, occurredAt: Instant)
      returns (r: Reservation)
      requires occurredAt < INT64_MAX
      ensures fresh(r) && r.State() == CreationState(org, id, resource, createdBy, interval, purpose, kind, true)
      ensures r.domainEvents == CreationEvents(r.State(), createdEventId, requestedEventId, occurredAt)
    {
      r := new Reservation(ReservationState(org, id, resource, createdBy, interval, purpose, kind, PendingApproval, None,
                                            None, None, 1));
      r.domainEvents := r.domainEvents + [ReservationCreated(createdEventId, occurredAt, r.org, r.id, r.resource,
                                                             r.createdBy, r.interval, r.kind, r.status)];
      r.domainEvents := r.domainEvents + [ReservationApprovalRequested(requestedEventId, occurredAt + 1, r.org, r.id,
                                                                       r.resource, r.createdBy, r.interval, r.kind)];
    }

    /** A persisted reservation comes back without events; version zero is refused. */
    static method Rehydrate(state: ReservationState) returns (r: Option<Reservation>)
      ensures r == None <==> state.version == 0
      ensures r.Some? ==> fresh(r.value) && r.value.State() == state && r.value.domainEvents == []
    {
      if state.version == 0 { return None; }
      var reservation := new Reservation(state);
      r := Some(reservation);
    }

    method ReleaseDomainEvents() returns (released: seq<Event>)
      modifies this
      ensures released == old(domainEvents) && domainEvents == [] && State() == old(State())
    {
      released := domainEvents;
      domainEvents := [];
    }

    method Approve(approvedBy: Id, approvedAt: Instant, eventId: Id) returns (error: Option<TransitionError>)
      modifies this
      ensures Transitioned(old(State()), State(), old(domainEvents), domainEvents,
                           Transition.Approve(approvedBy, approvedAt, eventId), error)
    {
      if status != PendingApproval { return Some(NotPending); }
      approval := Some(ApprovalInfo(approvedBy, approvedAt));
      status := Confirmed;
      version := NextVersion(version);
      domainEvents := domainEvents
        + [ReservationConfirmed(eventId, approvedAt, org, id, resource, interval, Some(approval.value.actor))];
      error := None;
    }

    method Reject(rejectedBy: Id, rejectedAt: Instant, eventId: Id, reason: Option<string>)
      returns (error: Option<TransitionError>)
      modifies this
      ensures Transitioned(old(State()), State(), old(domainEvents), domainEvents,
                           Transition.Reject(rejectedBy, rejectedAt, eventId, reason), error)
    {
      if status != PendingApproval { return Some(NotPending); }
      rejection := Some(RejectionInfo(rejectedBy, rejectedAt, reason));
      status := Rejected;
      version := NextVersion(version);
      domainEvents := domainEvents + [ReservationRejected(eventId, rejectedAt, org, id, resource, rejectedBy)];
      error := None;
    }

    method Cancel(cancelledBy: Id, cancelledAt: Instant, eventId: Id, reason: Option<string>)
      returns (error: Option<TransitionError>)
      modifies this
      ensures Transitioned(old(State()), State(), old(domainEvents), domainEvents,
                           Transition.Cancel(cancelledBy, cancelledAt, eventId, reason), error)
    {
      if IsTerminal(status) { return Some(AlreadyTerminal); }
      var previousStatus := status;
      status := Cancelled;
      cancellation := Some(CancellationInfo(cancelledBy, cancelledAt, reason));
      version := NextVersion(version);
      domainEvents := domainEvents
        + [ReservationCancelled(eventId, cancelledAt, org, id, resource, cancelledBy, previousStatus, reason)];
      error := None;
    }

    method Extend(newEnd: Instant, extendedBy: Id, extendedAt: Instant, eventId: Id)
      returns (error: Option<TransitionError>)
      modifies this
      ensures Transitioned(old(State()), State(), old(domainEvents), domainEvents,
                           Transition.Extend(newEnd, extendedBy, extendedAt, eventId), error)
      ensures error == Some(EndNotForward) <==> old(status).Confirmed? && newEnd <= old(interval).end
    {
      if status != Confirmed { return Some(NotConfirmed); }
      if newEnd <= interval.end { return Some(EndNotForward); }
      var previousInterval := interval;
      var extendedInterval: Interval := TimeInterval(interval.start, newEnd);
      domainEvents := domainEvents
        + [ReservationExtended(eventId, extendedAt, org, id, resource, extendedBy, previousInterval, extendedInterval)];
      interval := extendedInterval;
      version := NextVersion(version);
      error := None;
    }

    method Expire(expiredAt: Instant, eventId: Id) returns (error: Option<TransitionError>)
      modifies this
      ensures Transitioned(old(State()), State(), old(domainEvents), domainEvents,
                           Transition.Expire(expiredAt, eventId), error)
    {
      if IsTerminal(status) { return Some(AlreadyTerminal); }
      var previousStatus := status;
      status := Expired;
      version := NextVersion(version);
      domainEvents := domainEvents + [ReservationExpired(eventId, expiredAt, org, id, resource, previousStatus)];
      error := None;
    }

    method Complete(completedAt: Instant, eventId: Id) returns (error: Option<TransitionError>)
      modifies this
      ensures Transitioned(old(State()), State(), old(domainEvents), domainEvents,
                           Transition.Complete(completedAt, eventId), error)
    {
      if status != Confirmed { return Some(NotConfirmed); }
      domainEvents := domainEvents + [ReservationCompleted(eventId, completedAt, org, id, resource, interval)];
      status := Completed;
      version := NextVersion(version);
      error := None;
    }
  }
}
