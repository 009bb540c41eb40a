/** What the use-case handlers decide between their repository calls. */
module Handlers {
  import opened Wrappers
  import opened Timestamp
  import opened Domain
  import opened Idempotency

  // ----- Creation -----

  /** The rejections that need only the resource; `None` goes on to count reserved units. */
  function RejectResource(c: Command, resource: Option<Resource>): (rejection: Option<CreateStatus>)
    ensures rejection == None ==> resource.Some?
    ensures rejection.Some? ==> IsPermanentRejection(rejection.value)
  {
    match resource
    case None => Some(ResourceNotFound)
    case Some(r) =>
      if r.org != c.org then Some(ResourceNotFound)
      else if !r.active then Some(ResourceUnavailable)
      else match EvaluateCreation(r, c.interval, c.kind, c.maintenance)
        case ConfirmCreation => None
        case AwaitApproval => None
        case _ => Some(PolicyRejected)
  }

  /** Each rejection has its own cause, in this order: unknown in the organization, inactive, outside the policy. */
  lemma RejectionExact(c: Command, resource: Option<Resource>)
    ensures var rejection := RejectResource(c, resource);
      var known := resource.Some? && resource.value.org == c.org;
      && (rejection == Some(ResourceNotFound) <==> !known)
      && (rejection == Some(ResourceUnavailable) <==> known && !resource.value.active)
      && (rejection == Some(PolicyRejected) <==>
            known && resource.value.active && !Accepts(c.interval, c.kind, c.maintenance))
      && (rejection == None <==> known && resource.value.active && Accepts(c.interval, c.kind, c.maintenance))
  {
    PolicyAccepts(c.interval, c.kind, c.maintenance);
    hide EvaluatePolicy, Accepts;
  }

  /** `reserved_unit_count(...) >= static_cast<int>(total_units)`. */
  predicate FullyReserved(count: int, resource: Resource) {
    count >= ToInt32(resource.totalUnits)
  }

  // ----- Approval, rejection, cancellation, extension -----

  datatype EditCommand =
    | ApproveCommand(org: Id, id: Id, approver: Id, at: Instant, eventId: Id)
    | RejectCommand(org: Id, id: Id, rejecter: Id, at: Instant, eventId: Id, reason: Option<string>)
    | CancelCommand(org: Id, id: Id, caller: Id, at: Instant, eventId: Id, reason: Option<string>, bypassOwner: bool)
    | ExtendCommand(org: Id, id: Id, caller: Id, interval: Interval, at: Instant, eventId: Id)

  datatype EditStatus = ReservationNotFound | CallerNotAuthorized | InvalidState | EditPolicyRejected | EditScheduleConflict

  /** Refuse, transition at once, or transition unless another confirmed reservation overlaps `interval`. */
  datatype EditDecision =
    | Refuse(status: EditStatus)
    | Apply(transition: Transition)
    | ApplyUnlessConflict(interval: Interval, transition: Transition)

  function Decide(c: EditCommand, r: ReservationState): EditDecision {
    match c
    case ApproveCommand(_, _, approver, at, eventId) =>
      if !r.status.PendingApproval? then Refuse(InvalidState)
      else ApplyUnlessConflict(r.interval, Approve(approver, at, eventId))
    case RejectCommand(_, _, rejecter, at, eventId, reason) =>
      if !r.status.PendingApproval? then Refuse(InvalidState) else Apply(Reject(rejecter, at, eventId, reason))
    case CancelCommand(_, _, caller, at, eventId, reason, bypassOwner) =>
      if !bypassOwner && r.creator != caller then Refuse(CallerNotAuthorized)
      else if IsTerminal(r.status) then Refuse(InvalidState)
      else Apply(Cancel(caller, at, eventId, reason))
    case ExtendCommand(_, _, caller, interval, at, eventId) =>
      if r.creator != caller then Refuse(CallerNotAuthorized)
      else if !r.status.Confirmed? then Refuse(InvalidState)
      else if interval.start != r.interval.start || interval.end <= r.interval.end then Refuse(EditPolicyRejected)
      else if EvaluatePolicy(interval, r.kind, true) != NoViolation then Refuse(EditPolicyRejected)
      else ApplyUnlessConflict(interval, Extend(interval.end, caller, at, eventId))
  }

  function DecidedTransition(d: EditDecision): Option<Transition> {
    match d
    case Refuse(_) => None
    case Apply(t) => Some(t)
    case ApplyUnlessConflict(_, t) => Some(t)
  }

  /** A handler attempts only transitions the aggregate allows, and checks conflicts over the interval the reservation will occupy. */
  lemma DecisionsAreEnabled(c: EditCommand, r: ReservationState)
    ensures var d := Decide(c, r);
      && (DecidedTransition(d).Some? ==> Enabled(r, DecidedTransition(d).value))
      && (d.ApplyUnlessConflict? ==> Next(r, d.transition).interval == d.interval && Next(r, d.transition).status.Confirmed?)
      && (d.Apply? ==> !Next(r, d.transition).status.Confirmed?)
  {
  }

  lemma RefusalsOfDecide(c: EditCommand, r: ReservationState)
    ensures Decide(c, r).Refuse? ==> Decide(c, r).status.CallerNotAuthorized? || Decide(c, r).status.InvalidState?
                                     || Decide(c, r).status.EditPolicyRejected?
  {
  }

  /** Approval and rejection: of pending reservations only, and an approval unless another reservation conflicts. */
  lemma ReviewExact(c: EditCommand, r: ReservationState)
    requires c.ApproveCommand? || c.RejectCommand?
    ensures var d := Decide(c, r);
      if r.status != PendingApproval then d == Refuse(InvalidState)
      else if c.ApproveCommand? then d == ApplyUnlessConflict(r.interval, Approve(c.approver, c.at, c.eventId))
      else d == Apply(Reject(c.rejecter, c.at, c.eventId, c.reason))
  {
  }

  /** Cancellation: by the creator or with the owner check bypassed, of pending and confirmed reservations. */
  lemma CancellationExact(c: EditCommand, r: ReservationState)
    requires c.CancelCommand?
    ensures var d := Decide(c, r);
      var allowed, live := c.bypassOwner || c.caller == r.creator, r.status == PendingApproval || r.status == Confirmed;
      && (d == Refuse(CallerNotAuthorized) <==> !allowed)
      && (d == Refuse(InvalidState) <==> allowed && !live)
      && (d == Apply(Cancel(c.caller, c.at, c.eventId, c.reason)) <==> allowed && live)
      && (d.Refuse? <==> !allowed || !live) && !d.ApplyUnlessConflict?
  {
  }

  /** Extension: by the creator, of confirmed reservations, with the start kept and a later end the policy accepts. */
  lemma ExtensionExact(c: EditCommand, r: ReservationState)
    requires c.ExtendCommand?
    ensures var d := Decide(c, r);
      var owner, confirmed := c.caller == r.creator, r.status == Confirmed;
      var longer := c.interval.start == r.interval.start && r.interval.end < c.interval.end;
      && (d == Refuse(CallerNotAuthorized) <==> !owner)
      && (d == Refuse(InvalidState) <==> owner && !confirmed)
      && (d == Refuse(EditPolicyRejected) <==> owner && confirmed && !(longer && Accepts(c.interval, r.kind, true)))
      && (d == ApplyUnlessConflict(c.interval, Extend(c.interval.end, c.caller, c.at, c.eventId)) <==>
            owner && confirmed && longer && Accepts(c.interval, r.kind, true))
      && (d.Refuse? || d.ApplyUnlessConflict?)
  {
    PolicyAccepts(c.interval, r.kind, true);
    hide EvaluatePolicy, Accepts;
  }
}
