/**
 The decisions of creation handlers: what each deciding step answers, why every outcome of a run was
 the right one for what its handler read, and what a first call that runs alone is answered.
 */
module Decisions {
  import opened Wrappers
  import opened Timestamp
  import opened Domain
  import opened Encoding
  import opened Idempotency
  import opened Handlers
  import opened Schedule
  import opened World
  import opened StepShapes
  import opened CreationInvariant
  import opened SystemInvariant
  import opened SystemTheorems
  import Steps = CreationSteps
  import History = ReservationHistory
  import Books = OutboxInvariant

  // ----- One step -----

  /** A resource the command may be placed on: of its organization, active, and for an interval the policy accepts. */
  predicate Eligible(c: Command, resource: Option<Resource>) {
    resource.Some? && resource.value.org == c.org && resource.value.active && Accepts(c.interval, c.kind, c.maintenance)
  }

  /** The rejection that applies to a resource that is not eligible, in the order in which they are looked for. */
  predicate Applies(c: Command, resource: Option<Resource>, status: CreateStatus) {
    if resource == None || resource.value.org != c.org then status == ResourceNotFound
    else if !resource.value.active then status == ResourceUnavailable
    else !Accepts(c.interval, c.kind, c.maintenance) && status == PolicyRejected
  }

  /** The handler goes on to record the rejection under its own scope and fingerprint, and to answer it. */
  predicate Rejects(w: World, w': World, pid: nat, req: Request, status: CreateStatus) {
    var c := Completion(Scope(req.cmd.org, req.cmd.creator, Encoding.CreateReservation, req.cmd.key), req.fingerprint,
                        RejectionSnapshot(status), false, CreateResult(status, None, None));
    w' == w.(claims := w.claims.(creators := w.claims.creators[pid := Creator(req, CompletionRead(c))]))
  }

  /** Reading the resource: on to counting exactly if it is eligible, otherwise exactly the rejection that applies. */
  lemma ReadResourceExact(w: World, pid: nat, req: Request, resource: Option<Resource>, count: int)
    requires Steps.Runs(w, pid, req, ReadingResource)
    ensures var w' := CreatorStep(w, pid, Works, resource, count);
      if Eligible(req.cmd, resource)
      then w' == w.(claims := w.claims.(creators := w.claims.creators[pid := Creator(req, Counting(resource.value))]))
      else exists status :: Applies(req.cmd, resource, status) && Rejects(w, w', pid, req, status)
  {
    RejectionExact(req.cmd, resource);
    var rejected := RejectResource(req.cmd, resource);
    hide RejectResource, Accepts;
    if rejected.Some? { assert Applies(req.cmd, resource, rejected.value); }
  }

  /** Counting: a conflict exactly if the count reaches the units, otherwise on to persist what the resource asks for. */
  lemma CountExact(w: World, pid: nat, req: Request, r: Resource, resource: Option<Resource>, count: int)
    requires Steps.Runs(w, pid, req, Counting(r))
    ensures var w' := CreatorStep(w, pid, Works, resource, count);
      if count >= ToInt32(r.totalUnits) then Rejects(w, w', pid, req, ScheduleConflict)
      else w' == w.(claims := w.claims.(creators := w.claims.creators[pid := Creator(req, Persisting(r.requiresApproval))]))
  {
    hide ToInt32;
  }

  // ----- Runs -----

  /** Action `i` answers the handler of the request that reads the resource. */
  ghost predicate ReadAt(actions: seq<Action>, i: nat, req: Request, resource: Option<Resource>)
    requires i < |actions|
  {
    var a := actions[i];
    a.StepCreate? && a.io.Works? && a.resource == resource && Steps.Runs(Run(actions[..i]), a.pid, req, ReadingResource)
  }

  /** Action `j` answers the handler of the request that counts the reserved units of the resource it has read. */
  ghost predicate CountAt(actions: seq<Action>, j: nat, req: Request, r: Resource, count: int)
    requires j < |actions|
  {
    var a := actions[j];
    a.StepCreate? && a.io.Works? && a.count == count && Steps.Runs(Run(actions[..j]), a.pid, req, Counting(r))
  }

  ghost predicate SawEligible(actions: seq<Action>, req: Request, r: Resource) {
    Eligible(req.cmd, Some(r)) && exists i :: 0 <= i < |actions| && ReadAt(actions, i, req, Some(r))
  }

  /** The handler read an eligible resource and then counted fewer reserved units than it has. */
  ghost predicate HadRoom(actions: seq<Action>, req: Request, pending: bool) {
    exists j, r: Resource, count ::
      && 0 <= j < |actions| && CountAt(actions, j, req, r, count) && SawEligible(actions[..j], req, r)
      && count < ToInt32(r.totalUnits) && pending == r.requiresApproval
  }

  /** The handler read a resource, or none, for which this is the rejection; or it counted no unit left. */
  ghost predicate WasRefused(actions: seq<Action>, req: Request, status: CreateStatus) {
    || (exists i, resource: Option<Resource> ::
          0 <= i < |actions| && ReadAt(actions, i, req, resource) && Applies(req.cmd, resource, status))
    || (status == ScheduleConflict &&
        exists j, r: Resource, count ::
          && 0 <= j < |actions| && CountAt(actions, j, req, r, count) && SawEligible(actions[..j], req, r)
          && count >= ToInt32(r.totalUnits))
  }

  lemma StillSaw(actions: seq<Action>, req: Request, r: Resource)
    requires actions != [] && SawEligible(actions[..|actions| - 1], req, r)
    ensures SawEligible(actions, req, r)
  {
    hide Run, Eligible;
    var init := actions[..|actions| - 1];
    var i :| 0 <= i < |init| && ReadAt(init, i, req, Some(r));
    assert init[..i] == actions[..i];
    assert ReadAt(actions, i, req, Some(r));
  }

  lemma StillHadRoom(actions: seq<Action>, req: Request, pending: bool)
    requires actions != [] && HadRoom(actions[..|actions| - 1], req, pending)
    ensures HadRoom(actions, req, pending)
  {
    hide Run, SawEligible, ToInt32;
    var init := actions[..|actions| - 1];
    var j, r: Resource, count :|
      && 0 <= j < |init| && CountAt(init, j, req, r, count) && SawEligible(init[..j], req, r)
      && count < ToInt32(r.totalUnits) && pending == r.requiresApproval;
    assert init[..j] == actions[..j];
    assert CountAt(actions, j, req, r, count);
  }

  lemma StillRefused(actions: seq<Action>, req: Request, status: CreateStatus)
    requires actions != [] && WasRefused(actions[..|actions| - 1], req, status)
    ensures WasRefused(actions, req, status)
  {
    hide Run, SawEligible, ToInt32, Applies;
    var init := actions[..|actions| - 1];
    if i, resource: Option<Resource> :|
      0 <= i < |init| && ReadAt(init, i, req, resource) && Applies(req.cmd, resource, status) {
      assert init[..i] == actions[..i];
      assert ReadAt(actions, i, req, resource);
    } else {
      var j, r: Resource, count :|
        && 0 <= j < |init| && CountAt(init, j, req, r, count) && SawEligible(init[..j], req, r)
        && count >= ToInt32(r.totalUnits);
      assert init[..j] == actions[..j];
      assert CountAt(actions, j, req, r, count);
    }
  }

  /** What a handler has gone through to stand where it stands. */
  ghost predicate HandlerGrounded(actions: seq<Action>, c: Creator) {
    match c.pc
    case Counting(r) => SawEligible(actions, c.req, r)
    case Persisting(pending) => HadRoom(actions, c.req, pending)
    case CompletionRead(d) => d.succeeded || WasRefused(actions, c.req, d.snapshot.status)
    case CompletionWrite(d, _, _) => d.succeeded || WasRefused(actions, c.req, d.snapshot.status)
    case CompletionReconcile(d) => d.succeeded || WasRefused(actions, c.req, d.snapshot.status)
    case _ => true
  }

  ghost predicate HandlersGrounded(actions: seq<Action>) {
    var creators := Run(actions).claims.creators;
    forall p :: p in creators ==> HandlerGrounded(actions, creators[p])
  }

  lemma StillGrounded(actions: seq<Action>, c: Creator)
    requires actions != [] && HandlerGrounded(actions[..|actions| - 1], c)
    ensures HandlerGrounded(actions, c)
  {
    hide SawEligible, HadRoom, WasRefused;
    match c.pc
    case Counting(r) => StillSaw(actions, c.req, r);
    case Persisting(pending) => StillHadRoom(actions, c.req, pending);
    case CompletionRead(d) => if !d.succeeded { StillRefused(actions, c.req, d.snapshot.status); }
    case CompletionWrite(d, _, _) => if !d.succeeded { StillRefused(actions, c.req, d.snapshot.status); }
    case CompletionReconcile(d) => if !d.succeeded { StillRefused(actions, c.req, d.snapshot.status); }
    case _ =>
  }

  lemma FailedDecision(w: World, pid: nat, io: Io, resource: Option<Resource>, count: int)
    requires pid in w.claims.creators && !io.Works?
    requires w.claims.creators[pid].pc.ReadingResource? || w.claims.creators[pid].pc.Counting?
    ensures pid !in CreatorStep(w, pid, io, resource, count).claims.creators
  {
  }

  /** The handler is about to record this rejection. */
  predicate Refusing(w: World, pid: nat, req: Request, status: CreateStatus) {
    && pid in w.claims.creators && w.claims.creators[pid].req == req && w.claims.creators[pid].pc.CompletionRead?
    && var c := w.claims.creators[pid].pc.completion; !c.succeeded && c.snapshot.status == status
  }

  lemma ReadLands(w: World, pid: nat, req: Request, resource: Option<Resource>, count: int)
    requires Steps.Runs(w, pid, req, ReadingResource)
    ensures var w' := CreatorStep(w, pid, Works, resource, count);
      if Eligible(req.cmd, resource) then resource.Some? && Steps.Runs(w', pid, req, Counting(resource.value))
      else exists status :: Applies(req.cmd, resource, status) && Refusing(w', pid, req, status)
  {
    hide CreatorStep, Applies, Accepts;
    ReadResourceExact(w, pid, req, resource, count);
    var w' := CreatorStep(w, pid, Works, resource, count);
    if !Eligible(req.cmd, resource) {
      var status :| Applies(req.cmd, resource, status) && Rejects(w, w', pid, req, status);
      assert Refusing(w', pid, req, status);
    }
  }

  lemma CountLands(w: World, pid: nat, req: Request, r: Resource, resource: Option<Resource>, count: int)
    requires Steps.Runs(w, pid, req, Counting(r))
    ensures var w' := CreatorStep(w, pid, Works, resource, count);
      if count >= ToInt32(r.totalUnits) then Refusing(w', pid, req, ScheduleConflict)
      else Steps.Runs(w', pid, req, Persisting(r.requiresApproval))
  {
    hide CreatorStep, ToInt32;
    CountExact(w, pid, req, r, resource, count);
  }

  lemma RefusingGrounded(actions: seq<Action>, w: World, pid: nat, req: Request, status: CreateStatus)
    requires Refusing(w, pid, req, status) && WasRefused(actions, req, status)
    ensures HandlerGrounded(actions, w.claims.creators[pid])
  {
    hide WasRefused;
  }

  lemma ReadGrounds(actions: seq<Action>, req: Request, w': World)
    requires actions != [] && var n := |actions| - 1; var a, w := actions[n], Run(actions[..n]);
      && a.StepCreate? && a.io.Works? && Steps.Runs(w, a.pid, req, ReadingResource)
      && w' == CreatorStep(w, a.pid, Works, a.resource, a.count)
    ensures var pid := actions[|actions| - 1].pid;
      pid in w'.claims.creators ==> HandlerGrounded(actions, w'.claims.creators[pid])
  {
    hide Run, CreatorStep, Eligible, Applies, SawEligible, Refusing, WasRefused, HandlerGrounded;
    var n := |actions| - 1;
    var a := actions[n];
    ReadLands(Run(actions[..n]), a.pid, req, a.resource, a.count);
    assert ReadAt(actions, n, req, a.resource);
    if Eligible(req.cmd, a.resource) {
      SeesEligible(actions, n, req, a.resource.value);
      CountingGrounded(actions, w', a.pid, req, a.resource.value);
    } else {
      var status :| Applies(req.cmd, a.resource, status) && Refusing(w', a.pid, req, status);
      ReadRefuses(actions, n, req, a.resource, status);
      RefusingGrounded(actions, w', a.pid, req, status);
    }
  }

  lemma CountingGrounded(actions: seq<Action>, w: World, pid: nat, req: Request, r: Resource)
    requires Steps.Runs(w, pid, req, Counting(r)) && SawEligible(actions, req, r)
    ensures HandlerGrounded(actions, w.claims.creators[pid])
  {
    hide SawEligible;
  }

  lemma ReadRefuses(actions: seq<Action>, i: nat, req: Request, resource: Option<Resource>, status: CreateStatus)
    requires i < |actions| && ReadAt(actions, i, req, resource) && Applies(req.cmd, resource, status)
    ensures WasRefused(actions, req, status)
  {
    hide Run, Applies;
  }

  lemma CountGrounds(actions: seq<Action>, req: Request, r: Resource, w': World)
    requires actions != [] && var n := |actions| - 1; var a, w := actions[n], Run(actions[..n]);
      && a.StepCreate? && a.io.Works? && Steps.Runs(w, a.pid, req, Counting(r)) && SawEligible(actions[..n], req, r)
      && w' == CreatorStep(w, a.pid, Works, a.resource, a.count)
    ensures var pid := actions[|actions| - 1].pid;
      pid in w'.claims.creators ==> HandlerGrounded(actions, w'.claims.creators[pid])
  {
    hide Run, CreatorStep, SawEligible, Refusing, ToInt32;
    var n := |actions| - 1;
    var a := actions[n];
    CountLands(Run(actions[..n]), a.pid, req, r, a.resource, a.count);
    assert CountAt(actions, n, req, r, a.count);
    if a.count >= ToInt32(r.totalUnits) { RefusingGrounded(actions, w', a.pid, req, ScheduleConflict); }
  }

  lemma SeesEligible(actions: seq<Action>, i: nat, req: Request, r: Resource)
    requires i < |actions| && ReadAt(actions, i, req, Some(r)) && Eligible(req.cmd, Some(r))
    ensures SawEligible(actions, req, r)
  {
    hide Run, Eligible;
  }

  lemma RunStep(actions: seq<Action>)
    requires actions != []
    ensures var n := |actions| - 1; Run(actions) == Act(Run(actions[..n]), actions[n])
    ensures var n := |actions| - 1; actions[n].StepCreate? ==>
      Run(actions) == CreatorStep(Run(actions[..n]), actions[n].pid, actions[n].io, actions[n].resource, actions[n].count)
  {
    hide CreatorStep, EditorStep, PublisherStep, Prepare, Fresh;
  }

  /** A step that decides nothing leads where its handler has already been led to. */
  lemma CarriesGrounds(actions: seq<Action>, from: Creator, to: Creator)
    requires HandlerGrounded(actions, from) && to.req == from.req && MayMove(from.pc, to.pc)
    requires !from.pc.ReadingResource? && !from.pc.Counting?
    ensures HandlerGrounded(actions, to)
  {
    hide SawEligible, HadRoom, WasRefused;
  }

  lemma StepGrounds(actions: seq<Action>, w: World, w': World)
    requires actions != [] && var n := |actions| - 1; var a := actions[n];
      && w == Run(actions[..n]) && a.StepCreate? && a.pid in w.claims.creators
      && w' == CreatorStep(w, a.pid, a.io, a.resource, a.count) && HandlerGrounded(actions[..n], w.claims.creators[a.pid])
    ensures var pid := actions[|actions| - 1].pid;
      pid in w'.claims.creators ==> HandlerGrounded(actions, w'.claims.creators[pid])
  {
    hide Run, CreatorStep, SawEligible, HadRoom, WasRefused, MayMove, NewAnswers;
    var a := actions[|actions| - 1];
    var c := w.claims.creators[a.pid];
    if !c.pc.ReadingResource? && !c.pc.Counting? {
      StepFramed(w, a.pid, a.io, a.resource, a.count);
      StillGrounded(actions, c);
      if a.pid in w'.claims.creators { CarriesGrounds(actions, c, w'.claims.creators[a.pid]); }
    } else if !a.io.Works? {
      FailedDecision(w, a.pid, a.io, a.resource, a.count);
    } else if c.pc.ReadingResource? {
      ReadGrounds(actions, c.req, w');
    } else {
      CountGrounds(actions, c.req, c.pc.resource, w');
    }
  }

  /** A handler is moved by its own actions only, and starts by claiming. */
  lemma HandlerActs(w: World, a: Action, p: nat)
    requires p in Act(w, a).claims.creators
    ensures || (a.StepCreate? && a.pid == p && p in w.claims.creators)
            || (p in w.claims.creators && Act(w, a).claims.creators[p] == w.claims.creators[p])
            || Act(w, a).claims.creators[p].pc == Claiming
  {
    hide CreatorStep, EditorStep, PublisherStep, Prepare, Fresh;
    if a.StepCreate? && a.pid != p { OthersAlone(w, a.pid, a.io, a.resource, a.count, p); }
    if a.StepCreate? && a.pid !in w.claims.creators { NobodyActs(w, a); }
  }

  lemma NobodyActs(w: World, a: Action)
    requires a.StepCreate? && a.pid !in w.claims.creators
    ensures Act(w, a) == w
  {
    hide StepClaim, StepReadClaim, StepRecover, StepCheckEvent, StepReadResource, StepCount, StepPersist, StepReadToken,
         StepCompletionRead, StepCompletionWrite, StepReconcile;
  }

  lemma {:induction false} AllGrounded(actions: seq<Action>)
    ensures HandlersGrounded(actions)
    decreases |actions|
  {
    hide Run, Act, CreatorStep, HandlerGrounded;
    RunEmpty();
    if actions != [] {
      var n := |actions| - 1;
      var a, w, w' := actions[n], Run(actions[..n]), Run(actions);
      AllGrounded(actions[..n]);
      RunStep(actions);
      forall p | p in w'.claims.creators
        ensures HandlerGrounded(actions, w'.claims.creators[p])
      {
        HandlerActs(w, a, p);
        if a.StepCreate? && a.pid == p && p in w.claims.creators {
          StepGrounds(actions, w, w');
        } else if p in w.claims.creators && w'.claims.creators[p] == w.claims.creators[p] {
          StillGrounded(actions, w'.claims.creators[p]);
        } else {
          ClaimingGrounded(actions, w'.claims.creators[p]);
        }
      }
    }
  }

  lemma ClaimingGrounded(actions: seq<Action>, c: Creator)
    requires c.pc == Claiming
    ensures HandlerGrounded(actions, c)
  {
  }

  lemma RunEmpty()
    ensures Run([]) == Initial
  {
  }

  // ----- Every outcome was the right one for what was read -----

  ghost predicate CreatedGrounded(actions: seq<Action>) {
    var created := Run(actions).ledger.created;
    forall key :: key in created ==> HadRoom(actions, created[key].req, created[key].pending)
  }

  /** A creation enters the ledger only by a step that persists it. */
  lemma CreatedBy(w: World, a: Action, key: ReservationKey)
    requires key in Act(w, a).ledger.created
    ensures || (key in w.ledger.created && Act(w, a).ledger.created[key] == w.ledger.created[key])
            || (a.StepCreate? && a.pid in w.claims.creators && w.claims.creators[a.pid].pc.Persisting?
                && Act(w, a).ledger.created[key] == Creation(w.claims.creators[a.pid].req, w.claims.creators[a.pid].pc.pending))
  {
    hide CreatorStep, EditorStep, PublisherStep, Prepare, Fresh;
    if a.StepCreate? && a.pid in w.claims.creators {
      var c := w.claims.creators[a.pid];
      if c.pc.Persisting? {
        PersistCreates(w, a.pid, a.io, a.resource, a.count, key);
      } else {
        StepFramed(w, a.pid, a.io, a.resource, a.count);
      }
    } else if a.StepCreate? {
      NobodyActs(w, a);
    } else if a.StepEdit? {
      EditCreatesNothing(w.ledger, a.pid, a.io, a.conflict);
    }
  }

  lemma PersistCreates(w: World, pid: nat, io: Io, resource: Option<Resource>, count: int, key: ReservationKey)
    requires pid in w.claims.creators && w.claims.creators[pid].pc.Persisting?
    requires key in CreatorStep(w, pid, io, resource, count).ledger.created
    ensures var created, c := CreatorStep(w, pid, io, resource, count).ledger.created, w.claims.creators[pid];
      (key in w.ledger.created && created[key] == w.ledger.created[key]) || created[key] == Creation(c.req, c.pc.pending)
  {
    hide StepPersist;
    var c := w.claims.creators[pid];
    PersistFrame(w, pid, c.req, c.pc.pending, io);
  }

  lemma EditCreatesNothing(l: Ledger, pid: nat, io: Io, conflict: bool)
    ensures EditorStep(l, pid, io, conflict).created == l.created
  {
    hide Decide, Enabled, Next;
  }

  lemma {:induction false} AllCreatedGrounded(actions: seq<Action>)
    ensures CreatedGrounded(actions)
    decreases |actions|
  {
    hide Run, Act, HadRoom;
    RunEmpty();
    if actions != [] {
      var n := |actions| - 1;
      var w := Run(actions[..n]);
      AllCreatedGrounded(actions[..n]);
      AllGrounded(actions[..n]);
      RunStep(actions);
      forall key | key in Run(actions).ledger.created
        ensures HadRoom(actions, Run(actions).ledger.created[key].req, Run(actions).ledger.created[key].pending)
      {
        CreatedBy(w, actions[n], key);
        var c := Run(actions).ledger.created[key];
        if key in w.ledger.created && c == w.ledger.created[key] {
          StillHadRoom(actions, c.req, c.pending);
        } else {
          assert HandlerGrounded(actions[..n], w.claims.creators[actions[n].pid]);
          StillHadRoom(actions, c.req, c.pending);
        }
      }
    }
  }

  ghost predicate RejectionsGrounded(actions: seq<Action>) {
    var w := Run(actions);
    forall k :: k in w.claims.idem && w.claims.idem[k].doc.status.FailedPermanent? ==>
      k in w.claims.owners && RejectionGrounded(actions, w.claims.owners[k], w.claims.idem[k].doc)
  }

  ghost predicate RejectionGrounded(actions: seq<Action>, owner: Request, record: Record) {
    record.result.Some? && WasRefused(actions, owner, record.result.value.status)
  }

  /** The handler replaces the record of its own request by a failed one. */
  predicate Fails(w: World, a: Action, k: string, record: Record) {
    && a.StepCreate? && a.pid in w.claims.creators && w.claims.creators[a.pid].pc.CompletionWrite?
    && var c := w.claims.creators[a.pid];
       && !c.pc.completion.succeeded && k in w.claims.owners && w.claims.owners[k] == c.req
       && record.result == Some(c.pc.completion.snapshot)
  }

  lemma FailedBy(w: World, a: Action, k: string)
    requires Inv(w) && k in Act(w, a).claims.idem && Act(w, a).claims.idem[k].doc.status.FailedPermanent?
    ensures k in Act(w, a).claims.owners && (k in w.claims.owners ==> Act(w, a).claims.owners[k] == w.claims.owners[k])
    ensures || (k in w.claims.idem && Act(w, a).claims.idem[k] == w.claims.idem[k])
            || Fails(w, a, k, Act(w, a).claims.idem[k].doc)
  {
    hide Inv, CreatorStep, EditorStep, PublisherStep, Prepare, Fresh, Fails;
    RecordsOwned(w);
    if a.StepCreate? && a.pid in w.claims.creators {
      var c := w.claims.creators[a.pid];
      if c.pc.Claiming? {
        ClaimFailsNothing(w, a.pid, a.io, a.resource, a.count, k);
      } else if c.pc.CompletionWrite? {
        CompletionFails(w, a, k);
      } else {
        StepFramed(w, a.pid, a.io, a.resource, a.count);
      }
    } else if a.StepCreate? {
      NobodyActs(w, a);
    }
  }

  lemma RecordsOwned(w: World)
    requires Inv(w)
    ensures w.claims.idem.Keys == w.claims.owners.Keys
  {
    hide RecordOk, IssuedOk, CreatedOk, KeysOk, CreatorsOk, ResponsesOk, History.HistoryInv, Books.OutboxInv, PreparedOk;
  }

  lemma ClaimFailsNothing(w: World, pid: nat, io: Io, resource: Option<Resource>, count: int, k: string)
    requires pid in w.claims.creators && w.claims.creators[pid].pc.Claiming? && w.claims.idem.Keys == w.claims.owners.Keys
    ensures var c := CreatorStep(w, pid, io, resource, count).claims;
      && (k in c.idem ==> k in c.owners)
      && (k in w.claims.owners ==> k in c.owners && c.owners[k] == w.claims.owners[k])
      && (k in c.idem && c.idem[k].doc.status.FailedPermanent? ==> k in w.claims.idem && c.idem[k] == w.claims.idem[k])
  {
  }

  lemma CompletionFails(w: World, a: Action, k: string)
    requires Inv(w) && a.StepCreate? && a.pid in w.claims.creators && w.claims.creators[a.pid].pc.CompletionWrite?
    ensures var c := CreatorStep(w, a.pid, a.io, a.resource, a.count).claims;
      && c.owners == w.claims.owners && c.idem.Keys == w.claims.idem.Keys
      && (k in c.idem && c.idem[k].doc.status.FailedPermanent? ==>
            (k in w.claims.idem && c.idem[k] == w.claims.idem[k]) || Fails(w, a, k, c.idem[k].doc))
  {
    hide Inv, CreationInv, History.HistoryInv, Books.OutboxInv, PreparedOk, SharedOk, KeysOk, SnapshotOf, ResultOf,
         ProcessingRecord;
    Parts(w);
    var c := w.claims.creators[a.pid];
    Steps.Now(w, a.pid, c.req, c.pc);
  }

  lemma {:induction false} AllRejectionsGrounded(actions: seq<Action>)
    ensures RejectionsGrounded(actions)
    decreases |actions|
  {
    hide Run, Act, Inv, WasRefused;
    RunEmpty();
    if actions != [] {
      var n := |actions| - 1;
      var w, w' := Run(actions[..n]), Run(actions);
      AllRejectionsGrounded(actions[..n]);
      AllGrounded(actions[..n]);
      RunStep(actions);
      RunKeeps(actions[..n]);
      forall k | k in w'.claims.idem && w'.claims.idem[k].doc.status.FailedPermanent?
        ensures k in w'.claims.owners && RejectionGrounded(actions, w'.claims.owners[k], w'.claims.idem[k].doc)
      {
        FailedBy(w, actions[n], k);
        if k in w.claims.idem && w'.claims.idem[k] == w.claims.idem[k] {
          StillRefused(actions, w'.claims.owners[k], w'.claims.idem[k].doc.result.value.status);
        } else {
          assert HandlerGrounded(actions[..n], w.claims.creators[actions[n].pid]);
          StillRefused(actions, w'.claims.owners[k], w'.claims.idem[k].doc.result.value.status);
        }
      }
    }
  }

  /**
   In every run, each stored reservation was created by a handler that read an eligible resource and
   then counted fewer reserved units than the resource has; it awaits approval if and only if that
   resource asks for it. Each recorded rejection is the one that applied to the resource its handler
   read, or a count that reached the units.
   */
  lemma OutcomesWereDecided(actions: seq<Action>)
    ensures var created := Run(actions).ledger.created;
      forall key :: key in created ==> HadRoom(actions, created[key].req, created[key].pending)
    ensures var c := Run(actions).claims;
      forall k :: k in c.idem && c.idem[k].doc.status.FailedPermanent? ==>
        && k in c.owners && c.idem[k].doc.result.Some?
        && WasRefused(actions, c.owners[k], c.idem[k].doc.result.value.status)
  {
    hide Run, HadRoom, WasRefused;
    AllCreatedGrounded(actions);
    AllRejectionsGrounded(actions);
    assert forall k :: k in Run(actions).claims.idem && Run(actions).claims.idem[k].doc.status.FailedPermanent? ==>
      RejectionGrounded(actions, Run(actions).claims.owners[k], Run(actions).claims.idem[k].doc);
  }

  lemma SettledStatus(w: World, a: Response)
    requires Inv(w) && a in w.claims.responses && Definitive(a.outcome)
    ensures var k, result := a.req.documentKey, a.outcome.result;
      && k in w.claims.owners && k in w.claims.idem
      && var owner, record := w.claims.owners[k], w.claims.idem[k].doc; var key := KeyOfReservation(owner);
         if result.reservation.Some? then
           && key in w.ledger.created && w.ledger.created[key].req == owner
           && result.status == (if w.ledger.created[key].pending then CreatedPendingApproval else CreatedConfirmed)
           && result.createdAt == Some(owner.cmd.at)
         else
           record.status.FailedPermanent? && record.result == Some(RejectionSnapshot(result.status)) && result.createdAt == None
  {
    hide Inv, CreationInv, History.HistoryInv, Books.OutboxInv, PreparedOk, SharedOk, KeysOk;
    Parts(w);
    ResponseFacts(w, a);
    Whole(w);
    SettledRecord(w, a);
    Steps.ReadRecord(SharedOf(w), w.claims.issued, a.req);
  }

  /**
   Every settled answer is the one its scope's handler was led to: a success confirms if and only if
   the resource that handler read asks for no approval, and a rejection applied to what it read.
   */
  lemma SettledWereDecided(actions: seq<Action>, a: Response)
    requires a in Run(actions).claims.responses && Definitive(a.outcome)
    ensures var w, k, result := Run(actions), a.req.documentKey, a.outcome.result;
      && k in w.claims.owners && w.claims.owners[k].cmd.Payload() == a.req.cmd.Payload()
      && var owner := w.claims.owners[k];
         match result.status
         case CreatedConfirmed => result.createdAt == Some(owner.cmd.at) && HadRoom(actions, owner, false)
         case CreatedPendingApproval => result.createdAt == Some(owner.cmd.at) && HadRoom(actions, owner, true)
         case _ => result == CreateResult(result.status, None, None) && WasRefused(actions, owner, result.status)
  {
    hide Run, Inv, HadRoom, WasRefused;
    RunKeeps(actions);
    SettledStatus(Run(actions), a);
    SettledParts(Run(actions), a);
    OutcomesWereDecided(actions);
  }

  lemma SettledParts(w: World, a: Response)
    requires Inv(w) && a in w.claims.responses && Definitive(a.outcome)
    ensures var k, result := a.req.documentKey, a.outcome.result;
      && k in w.claims.owners && w.claims.owners[k].cmd.Payload() == a.req.cmd.Payload()
      && (result.reservation == None ==> IsPermanentRejection(result.status))
  {
    hide Inv, CreationInv, History.HistoryInv, Books.OutboxInv, PreparedOk;
    Parts(w);
    SettledRecord(w, a);
  }
}
