/**
 Publishing cycles inside the whole service: the fates that the steps of a publisher, taken
 between any other actions, give to its candidates.
 */
module PublisherRuns {
  import opened Wrappers
  import opened Timestamp
  import opened Domain
  import opened Idempotency
  import opened Handlers
  import opened World
  import opened StepShapes
  import opened SystemInvariant
  import opened SystemTheorems
  import C = PublishCycle

  /** The fate that a step gives to the candidate in work; `None` if the step leaves it in work. */
  function FateOf(o: Outbox, p: Publisher, io: Io, delivery: Delivery): Option<C.Fate>
    requires p.rest != []
  {
    var key, expected := p.rest[0].key, p.rest[0].token;
    match p.pc
    case ClaimRead =>
      if !io.Works? then Some(C.ClaimFails)
      else if !Matches(o, key, expected) then Some(C.ClaimLost)
      else
        var entry := o.entries[key].doc;
        if entry.org != key.0 || entry.event.eventId != key.1 then Some(C.ClaimFails)
        else if !entry.status.Pending? then Some(C.ClaimLost)
        else None
    case ClaimWrite(_) =>
      if io.Works? && Matches(o, key, expected) then None
      else if Reported(io) then Some(C.ClaimLost)
      else Some(C.ClaimFails)
    case Sending(_) => if delivery.Aborted? then Some(C.SendAborts) else None
    case MarkRead(token) => if io.Works? && Held(o, key, token) then None else Some(C.MarkFails)
    case MarkWrite(token, _) => Some(if io.Works? && Matches(o, key, token) then C.Marked else C.MarkFails)
    case ReleaseRead(token) => if io.Works? && Held(o, key, token) then None else Some(C.ReleaseFails)
    case ReleaseWrite(token, _) => Some(if io.Works? && Matches(o, key, token) then C.Released else C.ReleaseFails)
  }

  predicate Held(o: Outbox, key: EventKey, token: nat) {
    Matches(o, key, token) && o.entries[key].doc.status.Publishing?
  }

  /** A publisher's latest cycle: its batch, the fates so far, the calls of the broker, and whether it crashed. */
  datatype Journal = Journal(candidates: seq<Candidate>, fates: seq<C.Fate>, sends: seq<EventKey>, crashed: bool)

  function Entered(o: Outbox, a: Action, pid: nat, j: Journal): Journal {
    match a
    case BeginCycle(p, candidates) =>
      if p != pid || pid in o.publishers || candidates == [] then j else Journal(candidates, [], [], false)
    case CrashPublish(p) => if p == pid && pid in o.publishers then j.(crashed := true) else j
    case StepPublish(p, io, delivery, _) =>
      if p != pid || pid !in o.publishers || o.publishers[pid].rest == [] then j
      else
        var publisher := o.publishers[pid];
        var fate := FateOf(o, publisher, io, delivery);
        j.(fates := if fate.Some? then j.fates + [fate.value] else j.fates,
           sends := if publisher.pc.Sending? then j.sends + [publisher.rest[0].key] else j.sends)
    case _ => j
  }

  function JournalOf(actions: seq<Action>, pid: nat): Journal
    decreases |actions|
  {
    if actions == [] then Journal([], [], [], false)
    else
      var before := actions[..|actions| - 1];
      Entered(Run(before).outbox, actions[|actions| - 1], pid, JournalOf(before, pid))
  }

  function Keys(candidates: seq<Candidate>): (keys: seq<EventKey>)
    ensures |keys| == |candidates|
  {
    seq(|candidates|, i requires 0 <= i < |candidates| => candidates[i].key)
  }

  predicate PastSending(pc: PublishPc) {
    pc.MarkRead? || pc.MarkWrite? || pc.ReleaseRead? || pc.ReleaseWrite?
  }

  predicate LastEnds(fates: seq<C.Fate>) {
    fates != [] && C.Ends(fates[|fates| - 1])
  }

  /** The sends of the candidates that have their fate. */
  function Settled(candidates: seq<Candidate>, fates: seq<C.Fate>): seq<EventKey>
    requires |fates| <= |candidates|
  {
    C.Sends(Keys(candidates[..|fates|]), fates)
  }

  predicate JournalOk(o: Outbox, pid: nat, j: Journal) {
    && |j.fates| <= |j.candidates|
    && (forall i :: 0 <= i < |j.fates| - 1 ==> !C.Ends(j.fates[i]))
    && (if pid in o.publishers
        then
          var p := o.publishers[pid];
          && !j.crashed && |j.fates| < |j.candidates| && p.rest == j.candidates[|j.fates|..] && !LastEnds(j.fates)
          && j.sends == Settled(j.candidates, j.fates) + (if PastSending(p.pc) then [p.rest[0].key] else [])
        else j.crashed || (j.sends == Settled(j.candidates, j.fates) && (|j.fates| < |j.candidates| ==> LastEnds(j.fates))))
  }

  lemma SettledStep(candidates: seq<Candidate>, fates: seq<C.Fate>, fate: C.Fate)
    requires |fates| < |candidates|
    ensures Settled(candidates, fates + [fate])
            == Settled(candidates, fates) + (if C.Attempted(fate) then [candidates[|fates|].key] else [])
  {
    var n := |fates|;
    assert Keys(candidates[..n + 1])[..n] == Keys(candidates[..n]);
    assert (fates + [fate])[..n] == fates;
  }

  /**
   A step that gives no fate goes on with the same candidate; one that gives a fate ends the cycle
   or goes on with the next.
   */
  predicate MovesBy(p: Publisher, o': Outbox, pid: nat, fate: Option<C.Fate>)
    requires p.rest != []
  {
    match fate
    case None =>
      && pid in o'.publishers && o'.publishers[pid].rest == p.rest
      && (PastSending(o'.publishers[pid].pc) <==> p.pc.Sending? || PastSending(p.pc))
    case Some(f) =>
      && (C.Attempted(f) <==> p.pc.Sending? || PastSending(p.pc))
      && (pid in o'.publishers <==> !C.Ends(f) && |p.rest| > 1)
      && (pid in o'.publishers ==> o'.publishers[pid] == Publisher(p.rest[1..], ClaimRead))
  }

  lemma FateMovesBefore(o: Outbox, pid: nat, io: Io, delivery: Delivery, now: Instant)
    requires pid in o.publishers && o.publishers[pid].rest != [] && !PastSending(o.publishers[pid].pc)
    ensures MovesBy(o.publishers[pid], PublisherStep(o, pid, io, delivery, now), pid, FateOf(o, o.publishers[pid], io, delivery))
  {
    hide ClaimEntry, Send, MarkEntry, ReleaseEntry;
  }

  lemma FateMovesAfter(o: Outbox, pid: nat, io: Io, delivery: Delivery, now: Instant)
    requires pid in o.publishers && o.publishers[pid].rest != [] && PastSending(o.publishers[pid].pc)
    ensures MovesBy(o.publishers[pid], PublisherStep(o, pid, io, delivery, now), pid, FateOf(o, o.publishers[pid], io, delivery))
  {
    hide ClaimEntry, Send, MarkEntry, ReleaseEntry;
  }

  lemma StepEntered(o: Outbox, pid: nat, io: Io, delivery: Delivery, now: Instant, j: Journal)
    requires JournalOk(o, pid, j) && pid in o.publishers
    ensures JournalOk(PublisherStep(o, pid, io, delivery, now), pid, Entered(o, StepPublish(pid, io, delivery, now), pid, j))
  {
    hide PublisherStep, FateOf, Settled, C.Ends, C.Attempted;
    if PastSending(o.publishers[pid].pc) {
      FateMovesAfter(o, pid, io, delivery, now);
    } else {
      FateMovesBefore(o, pid, io, delivery, now);
    }
    var fate := FateOf(o, o.publishers[pid], io, delivery);
    if fate.Some? { SettledStep(j.candidates, j.fates, fate.value); }
  }

  predicate Concerns(a: Action, pid: nat) {
    (a.BeginCycle? || a.StepPublish? || a.CrashPublish?) && a.pid == pid
  }

  lemma CreatorsLeave(w: World, pid: nat, io: Io, resource: Option<Resource>, count: int)
    ensures CreatorStep(w, pid, io, resource, count).outbox.publishers == w.outbox.publishers
  {
    if pid in w.claims.creators {
      hide CreatorStep;
      StepFramed(w, pid, io, resource, count);
    }
  }

  predicate SameFor(o: Outbox, o': Outbox, pid: nat) {
    && (pid in o'.publishers <==> pid in o.publishers)
    && (pid in o.publishers ==> o'.publishers[pid] == o.publishers[pid])
  }

  /** Writes and sends leave the publishers alone. */
  lemma WritesLeave(o: Outbox, key: EventKey, entry: OutboxEntry, now: Instant)
    ensures ClaimEntry(o, key, entry).publishers == o.publishers
    ensures MarkEntry(o, key, entry, now).publishers == o.publishers
    ensures ReleaseEntry(o, key, entry).publishers == o.publishers
  {
  }

  lemma SendLeaves(o: Outbox, key: EventKey, token: nat, delivery: Delivery)
    ensures Send(o, key, token, delivery).publishers == o.publishers
  {
  }

  /** Wherever a publisher goes, the others stay. */
  lemma MovesLeave(o: Outbox, o1: Outbox, other: nat, rest: seq<Candidate>, pid: nat)
    requires other != pid && o1.publishers == o.publishers && rest != []
    ensures SameFor(o, EndCycle(o1, other), pid) && SameFor(o, NextCandidate(o1, other, rest), pid)
    ensures forall pc :: SameFor(o, MovePublisher(o1, other, rest, pc), pid)
  {
  }

  lemma MovesLeaveTo(o: Outbox, other: nat, rest: seq<Candidate>, pc: PublishPc, pid: nat)
    requires other != pid
    ensures SameFor(o, MovePublisher(o, other, rest, pc), pid)
  {
  }

  lemma StepLeaves(o: Outbox, other: nat, io: Io, delivery: Delivery, now: Instant, pid: nat)
    requires other != pid
    ensures SameFor(o, PublisherStep(o, other, io, delivery, now), pid)
  {
    hide ClaimEntry, Send, MarkEntry, ReleaseEntry, MovePublisher, EndCycle, NextCandidate, SameFor, Effective;
    SameAlways(o, pid);
    if other in o.publishers && o.publishers[other].rest != [] {
      var rest, pc := o.publishers[other].rest, o.publishers[other].pc;
      var key := rest[0].key;
      MovesLeave(o, o, other, rest, pid);
      match pc
      case ClaimWrite(entry) =>
        WritesLeave(o, key, entry, now);
        MovesLeave(o, ClaimEntry(o, key, entry), other, rest, pid);
      case Sending(token) =>
        SendLeaves(o, key, token, delivery);
        MovesLeave(o, Send(o, key, token, delivery), other, rest, pid);
      case MarkWrite(_, entry) =>
        WritesLeave(o, key, entry, now);
        MovesLeave(o, MarkEntry(o, key, entry, now), other, rest, pid);
      case ReleaseWrite(_, entry) =>
        WritesLeave(o, key, entry, now);
        MovesLeave(o, ReleaseEntry(o, key, entry), other, rest, pid);
      case ClaimRead => if key in o.entries { MovesLeaveTo(o, other, rest, ClaimWrite(o.entries[key].doc), pid); }
      case MarkRead(token) => if key in o.entries { MovesLeaveTo(o, other, rest, MarkWrite(token, o.entries[key].doc), pid); }
      case ReleaseRead(token) =>
        if key in o.entries { MovesLeaveTo(o, other, rest, ReleaseWrite(token, o.entries[key].doc), pid); }
    }
  }

  lemma SameAlways(o: Outbox, pid: nat)
    ensures SameFor(o, o, pid)
  {
  }

  /** Only its own actions move a publisher. */
  lemma OthersLeave(w: World, a: Action, pid: nat)
    requires !Concerns(a, pid)
    ensures SameFor(w.outbox, Act(w, a).outbox, pid)
  {
    hide Prepare, Fresh, CreatorStep, EditorStep, PublisherStep;
    if a.StepCreate? { CreatorsLeave(w, a.pid, a.io, a.resource, a.count); }
    if a.StepPublish? { StepLeaves(w.outbox, a.pid, a.io, a.delivery, a.now, pid); }
  }

  lemma ActEntered(w: World, a: Action, pid: nat, j: Journal)
    requires JournalOk(w.outbox, pid, j)
    ensures JournalOk(Act(w, a).outbox, pid, Entered(w.outbox, a, pid, j))
  {
    if !Concerns(a, pid) {
      hide Act;
      OthersLeave(w, a, pid);
    } else if a.StepPublish? && pid in w.outbox.publishers {
      hide JournalOk, Entered, PublisherStep;
      StepEntered(w.outbox, pid, a.io, a.delivery, a.now, j);
    }
  }

  lemma StartOk(pid: nat)
    ensures JournalOk(Run([]).outbox, pid, JournalOf([], pid))
  {
  }

  lemma {:induction false} JournalKept(actions: seq<Action>, pid: nat)
    ensures JournalOk(Run(actions).outbox, pid, JournalOf(actions, pid))
    decreases |actions|
  {
    hide Act, Entered, JournalOk;
    if actions == [] {
      StartOk(pid);
    } else {
      var before := actions[..|actions| - 1];
      JournalKept(before, pid);
      ActEntered(Run(before), actions[|actions| - 1], pid, JournalOf(before, pid));
    }
  }

  /** The candidates marked so far are stored as published. */
  ghost predicate MarkedStored(o: Outbox, j: Journal) {
    forall i :: 0 <= i < |j.fates| && i < |j.candidates| && j.fates[i].Marked? ==>
      j.candidates[i].key in o.entries && o.entries[j.candidates[i].key].doc.status.Published?
  }

  lemma FateMarks(o: Outbox, pid: nat, io: Io, delivery: Delivery, now: Instant)
    requires pid in o.publishers && o.publishers[pid].rest != []
    requires FateOf(o, o.publishers[pid], io, delivery) == Some(C.Marked)
    ensures var key, o' := o.publishers[pid].rest[0].key, PublisherStep(o, pid, io, delivery, now);
      key in o'.entries && o'.entries[key].doc.status.Published?
  {
    hide ClaimEntry, Send, ReleaseEntry;
  }

  lemma MarksStored(w: World, a: Action, pid: nat, j: Journal)
    requires JournalOk(w.outbox, pid, j) && MarkedStored(w.outbox, j) && OutboxLater(w.outbox, Act(w, a).outbox)
    ensures MarkedStored(Act(w, a).outbox, Entered(w.outbox, a, pid, j))
  {
    hide PublisherStep, CreatorStep, EditorStep, Settled, FateOf, Prepare, Fresh;
    if a.StepPublish? && a.pid == pid && pid in w.outbox.publishers {
      var p := w.outbox.publishers[pid];
      if FateOf(w.outbox, p, a.io, a.delivery) == Some(C.Marked) { FateMarks(w.outbox, pid, a.io, a.delivery, a.now); }
    }
  }

  lemma {:induction false} JournalMarks(actions: seq<Action>, pid: nat)
    ensures MarkedStored(Run(actions).outbox, JournalOf(actions, pid))
    decreases |actions|
  {
    hide Act, Entered, JournalOk, MarkedStored, Inv, ClaimsLater, LedgerLater, OutboxLater;
    if actions == [] {
      NothingMarked(pid);
    } else {
      var before, a := actions[..|actions| - 1], actions[|actions| - 1];
      JournalKept(before, pid);
      JournalMarks(before, pid);
      RunKeeps(before);
      ActLater(Run(before), a);
      MarksStored(Run(before), a, pid, JournalOf(before, pid));
    }
  }

  lemma NothingMarked(pid: nat)
    ensures MarkedStored(Run([]).outbox, JournalOf([], pid))
  {
  }

  predicate Over(actions: seq<Action>, pid: nat) {
    pid !in Run(actions).outbox.publishers && !JournalOf(actions, pid).crashed
  }

  lemma BeforeTheEnd(candidates: seq<EventKey>, settled: seq<C.Fate>, fates: seq<C.Fate>, result: C.Counts, sends: seq<EventKey>,
                     processed: nat, ending: C.Ending)
    requires settled <= fates && |fates| == |candidates|
    requires forall i :: 0 <= i < |settled| - 1 ==> !C.Ends(settled[i])
    requires |settled| < |fates| ==> LastEnds(settled)
    requires C.CycleAnswers(candidates, fates, result, sends, processed, ending)
    ensures processed == |settled| && (ending.Threw? <==> LastEnds(settled))
  {
    hide C.Ends, C.Accounts, C.Sends;
  }

  /**
   A cycle of any run that came to its end, whatever happened between its steps, is a call of
   `run_cycle`: the call on the batch with these fates throws exactly when the cycle threw, makes
   the same sends, and counts what the steps did. A candidate counted as published is stored as
   published and was acknowledged.
   */
  lemma CycleIsRunCycle(actions: seq<Action>, pid: nat, fates: seq<C.Fate>, result: C.Counts, sends: seq<EventKey>, processed: nat,
                        ending: C.Ending)
    requires var j := JournalOf(actions, pid);
      && Over(actions, pid) && j.fates <= fates && |fates| == |j.candidates|
      && C.CycleAnswers(Keys(j.candidates), fates, result, sends, processed, ending)
    ensures var j, o := JournalOf(actions, pid), Run(actions).outbox;
      && processed == |j.fates| && sends == j.sends && C.Accounts(result, j.fates)
      && (ending.Threw? <==> LastEnds(j.fates))
      && (forall i :: 0 <= i < |j.fates| && j.fates[i].Marked? ==>
            && j.candidates[i].key in o.entries && o.entries[j.candidates[i].key].doc.status.Published?
            && j.candidates[i].key in o.delivered)
  {
    hide Run, JournalOf, C.Ends, C.Accounts, C.Sends, PastSending;
    var j, o := JournalOf(actions, pid), Run(actions).outbox;
    JournalKept(actions, pid);
    BeforeTheEnd(Keys(j.candidates), j.fates, fates, result, sends, processed, ending);
    assert fates[..processed] == j.fates;
    assert Keys(j.candidates)[..processed] == Keys(j.candidates[..processed]);
    JournalMarks(actions, pid);
    forall i | 0 <= i < |j.fates| && j.fates[i].Marked? ensures j.candidates[i].key in o.delivered {
      OutboxIsTruthful(actions, j.candidates[i].key);
    }
  }
}
