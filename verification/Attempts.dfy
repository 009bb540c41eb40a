/**
 What one cycle does to a pending event, by the answer of the broker, and what many cycles do: the
 attempt counter of an event wraps around, so a broker that keeps refusing an event receives it more
 often than its document counts.
 */
module Attempts {
  import opened Wrappers
  import opened Timestamp
  import opened Domain
  import opened World
  import opened Runs
  import opened CreationInvariant
  import opened SystemInvariant
  import opened SystemTheorems
  import History = ReservationHistory
  import Books = OutboxInvariant

  const ATTEMPT_LIMIT := 0x1_0000_0000

  /** The publisher is free, and the event is pending under its own key. */
  predicate Ready(o: Outbox, pid: nat, key: EventKey) {
    && pid !in o.publishers && key in o.entries
    && var entry := o.entries[key].doc;
       entry.status.Pending? && entry.publishedAt == None && (entry.org, entry.event.eventId) == key
  }

  function Sent(o: Outbox, key: EventKey): nat {
    if key in o.sent then o.sent[key] else 0
  }

  function Claimed(o: Outbox, pid: nat, key: EventKey): Outbox
    requires key in o.entries
  {
    var rest, entry := [Candidate(key, o.entries[key].cas)], o.entries[key].doc;
    MovePublisher(ClaimEntry(MovePublisher(o, pid, rest, ClaimWrite(entry)), key, entry), pid, rest, Sending(o.nextCas))
  }

  lemma ClaimsEvent(o: Outbox, pid: nat, key: EventKey, delivery: Delivery, now: Instant)
    requires Ready(o, pid, key)
    ensures var o1 := MovePublisher(o, pid, [Candidate(key, o.entries[key].cas)], ClaimRead);
      var o2 := PublisherStep(o1, pid, Works, delivery, now);
      PublisherStep(o2, pid, Works, delivery, now) == Claimed(o, pid, key)
  {
    hide ClaimEntry, Send, MarkEntry, ReleaseEntry, NextCandidate;
    var rest, entry := [Candidate(key, o.entries[key].cas)], o.entries[key].doc;
    var o1 := MovePublisher(o, pid, rest, ClaimRead);
    var o2 := MovePublisher(o, pid, rest, ClaimWrite(entry));
    assert o1.publishers[pid := Publisher(rest, ClaimWrite(entry))] == o2.publishers;
    assert PublisherStep(o1, pid, Works, delivery, now) == o2;
  }

  lemma EndsCycle(o: Outbox, pid: nat, rest: seq<Candidate>)
    requires |rest| == 1
    ensures NextCandidate(o, pid, rest) == EndCycle(o, pid)
  {
  }

  function Cycle(o: Outbox, pid: nat, key: EventKey, delivery: Delivery, now: Instant): seq<Action>
    requires key in o.entries
  {
    var step := StepPublish(pid, Works, delivery, now);
    [BeginCycle(pid, [Candidate(key, o.entries[key].cas)]), step, step, step, step, step]
  }

  /** What the document of the event says after the cycle. */
  function Settled(entry: OutboxEntry, delivery: Delivery, now: Instant): OutboxEntry {
    entry.(status := match delivery
                     case Acknowledged => Published
                     case Refused => Pending
                     case Aborted => Publishing,
           publishedAt := if delivery == Acknowledged then Some(now) else None,
           attempts := (entry.attempts + 1) % 0x1_0000_0000)
  }

  /** The cycle has ended: one send, one attempt, and nothing but the event has changed. */
  predicate CycleDone(o: Outbox, o': Outbox, pid: nat, key: EventKey, delivery: Delivery, now: Instant) {
    && key in o.entries && key in o'.entries && o'.entries[key].doc == Settled(o.entries[key].doc, delivery, now)
    && o'.entries - {key} == o.entries - {key} && o'.publishers == o.publishers
    && Sent(o', key) == Sent(o, key) + 1
    && o'.delivered == o.delivered + if delivery == Acknowledged then {key} else {}
  }

  /** The claimed event has been sent. */
  function Answered(o: Outbox, pid: nat, key: EventKey, delivery: Delivery): Outbox
    requires key in o.entries
  {
    Send(Claimed(o, pid, key), key, o.nextCas, delivery)
  }

  lemma AnsweredFrame(o: Outbox, pid: nat, key: EventKey, delivery: Delivery)
    requires Ready(o, pid, key)
    ensures var o', entry := Answered(o, pid, key, delivery), o.entries[key].doc;
      && o'.entries == o.entries[key := Stored(entry.(status := Publishing, attempts := NextAttempt(entry.attempts)), o.nextCas)]
      && o'.publishers - {pid} == o.publishers && Sent(o', key) == Sent(o, key) + 1
      && o'.delivered == o.delivered + if delivery == Acknowledged then {key} else {}
  {
    hide NextAttempt, TokensOf;
  }

  lemma Marks(o: Outbox, pid: nat, key: EventKey, now: Instant)
    requires Ready(o, pid, key)
    ensures var rest, token, o4 := [Candidate(key, o.entries[key].cas)], o.nextCas, Answered(o, pid, key, Acknowledged);
      var o5 := MovePublisher(o4, pid, rest, MarkRead(token));
      var o6 := PublisherStep(PublisherStep(o5, pid, Works, Acknowledged, now), pid, Works, Acknowledged, now);
      key in o4.entries
      && o6.entries == o4.entries[key := Stored(o4.entries[key].doc.(status := Published, publishedAt := Some(now)), o4.nextCas)]
      && o6.publishers == o4.publishers - {pid} && o6.sent == o4.sent && o6.delivered == o4.delivered
  {
    hide NextAttempt, Claimed, Send, Sent;
    AnsweredFrame(o, pid, key, Acknowledged);
    var rest, token, o4 := [Candidate(key, o.entries[key].cas)], o.nextCas, Answered(o, pid, key, Acknowledged);
    hide Answered;
    var o5 := MovePublisher(o4, pid, rest, MarkRead(token));
    var o6 := PublisherStep(o5, pid, Works, Acknowledged, now);
    assert o6 == MovePublisher(o5, pid, rest, MarkWrite(token, o4.entries[key].doc));
    EndsCycle(MarkEntry(o6, key, o4.entries[key].doc, now), pid, rest);
  }

  lemma Unmarks(o: Outbox, pid: nat, key: EventKey, now: Instant)
    requires Ready(o, pid, key)
    ensures var rest, token, o4 := [Candidate(key, o.entries[key].cas)], o.nextCas, Answered(o, pid, key, Refused);
      var o5 := MovePublisher(o4, pid, rest, ReleaseRead(token));
      var o6 := PublisherStep(PublisherStep(o5, pid, Works, Refused, now), pid, Works, Refused, now);
      key in o4.entries
      && o6.entries == o4.entries[key := Stored(o4.entries[key].doc.(status := Pending, publishedAt := None), o4.nextCas)]
      && o6.publishers == o4.publishers - {pid} && o6.sent == o4.sent && o6.delivered == o4.delivered
  {
    hide NextAttempt, Claimed, Send, Sent;
    AnsweredFrame(o, pid, key, Refused);
    var rest, token, o4 := [Candidate(key, o.entries[key].cas)], o.nextCas, Answered(o, pid, key, Refused);
    hide Answered;
    var o5 := MovePublisher(o4, pid, rest, ReleaseRead(token));
    var o6 := PublisherStep(o5, pid, Works, Refused, now);
    assert o6 == MovePublisher(o5, pid, rest, ReleaseWrite(token, o4.entries[key].doc));
    EndsCycle(ReleaseEntry(o6, key, o4.entries[key].doc), pid, rest);
  }

  lemma Sends(o: Outbox, pid: nat, key: EventKey, delivery: Delivery, now: Instant)
    requires Ready(o, pid, key)
    ensures var o4, rest, token := Answered(o, pid, key, delivery), [Candidate(key, o.entries[key].cas)], o.nextCas;
      PublisherStep(Claimed(o, pid, key), pid, Works, delivery, now) ==
        match delivery
        case Acknowledged => MovePublisher(o4, pid, rest, MarkRead(token))
        case Refused => MovePublisher(o4, pid, rest, ReleaseRead(token))
        case Aborted => EndCycle(o4, pid)
  {
    hide ClaimEntry, MarkEntry, ReleaseEntry, NextCandidate, Send;
  }

  lemma CycleEnds(o: Outbox, pid: nat, key: EventKey, delivery: Delivery, now: Instant)
    requires Ready(o, pid, key)
    ensures var o4 := PublisherStep(Claimed(o, pid, key), pid, Works, delivery, now);
      CycleDone(o, PublisherStep(PublisherStep(o4, pid, Works, delivery, now), pid, Works, delivery, now), pid, key, delivery, now)
  {
    hide Claimed, Send;
    Sends(o, pid, key, delivery, now);
    AnsweredFrame(o, pid, key, delivery);
    hide Answered;
    match delivery
    case Acknowledged => hide PublisherStep; Marks(o, pid, key, now);
    case Refused => hide PublisherStep; Unmarks(o, pid, key, now);
    case Aborted => NoPublisher(EndCycle(Answered(o, pid, key, Aborted), pid), pid, now); hide PublisherStep;
  }

  lemma NoPublisher(o: Outbox, pid: nat, now: Instant)
    requires pid !in o.publishers
    ensures PublisherStep(o, pid, Works, Aborted, now) == o
  {
  }

  /** One more send and one more attempt, and the event is pending again. */
  predicate Counted(o: Outbox, o': Outbox, pid: nat, key: EventKey) {
    && key in o.entries && Ready(o', pid, key) && Sent(o', key) == Sent(o, key) + 1
    && o'.entries[key].doc.attempts == NextAttempt(o.entries[key].doc.attempts)
  }

  lemma PlaySix(w: World, a: Action, b: Action, c: Action, d: Action, e: Action, f: Action)
    ensures Play(w, [a, b, c, d, e, f]) == Act(Act(Act(Act(Act(Act(w, a), b), c), d), e), f)
  {
    hide Act;
    PlayFive(Act(w, a), b, c, d, e, f);
    assert [a, b, c, d, e, f][1..] == [b, c, d, e, f];
  }

  lemma PlayCycle(w: World, pid: nat, key: EventKey, delivery: Delivery, now: Instant)
    requires Ready(w.outbox, pid, key)
    ensures var w' := Play(w, Cycle(w.outbox, pid, key, delivery, now));
      w' == w.(outbox := w'.outbox) && CycleDone(w.outbox, w'.outbox, pid, key, delivery, now)
  {
    hide PublisherStep, MovePublisher, Claimed, CycleDone, Play;
    var o, step := w.outbox, StepPublish(pid, Works, delivery, now);
    ClaimsEvent(o, pid, key, delivery, now);
    CycleEnds(o, pid, key, delivery, now);
    PlaySix(w, Cycle(o, pid, key, delivery, now)[0], step, step, step, step, step);
  }

  lemma RoundCounts(w: World, pid: nat, key: EventKey, now: Instant)
    requires Ready(w.outbox, pid, key)
    ensures Counted(w.outbox, Play(w, Cycle(w.outbox, pid, key, Refused, now)).outbox, pid, key)
  {
    hide Play, Cycle, Sent;
    PlayCycle(w, pid, key, Refused, now);
  }

  function Rounds(w: World, pid: nat, key: EventKey, now: Instant, n: nat): seq<Action>
    requires Ready(w.outbox, pid, key)
    decreases n
  {
    if n == 0 then []
    else
      var round := Cycle(w.outbox, pid, key, Refused, now);
      RoundCounts(w, pid, key, now);
      round + Rounds(Play(w, round), pid, key, now, n - 1)
  }

  lemma {:induction false} RoundsCount(w: World, pid: nat, key: EventKey, now: Instant, n: nat)
    requires Ready(w.outbox, pid, key) && w.outbox.entries[key].doc.attempts < ATTEMPT_LIMIT
    ensures var o, o' := w.outbox, Play(w, Rounds(w, pid, key, now, n)).outbox;
      && key in o'.entries && Sent(o', key) == Sent(o, key) + n
      && o'.entries[key].doc.attempts == (o.entries[key].doc.attempts + n) % ATTEMPT_LIMIT
    decreases n
  {
    hide Act, Cycle, Sent;
    if n > 0 {
      var round := Cycle(w.outbox, pid, key, Refused, now);
      var w' := Play(w, round);
      RoundCounts(w, pid, key, now);
      RoundsCount(w', pid, key, now, n - 1);
      PlayTwice(w, round, Rounds(w', pid, key, now, n - 1));
    }
  }

  lemma PendingIsReady(actions: seq<Action>, pid: nat, key: EventKey)
    requires var o := Run(actions).outbox;
      pid !in o.publishers && key in o.entries && o.entries[key].doc.status.Pending?
    ensures Ready(Run(actions).outbox, pid, key) && Run(actions).outbox.entries[key].doc.attempts < ATTEMPT_LIMIT
  {
    hide Run, CreationInv, History.HistoryInv, Books.EventsStored, Books.TrafficOk, Books.PublishersOk, PreparedOk;
    RunParts(actions);
    OutboxIsTruthful(actions, key);
    assert Books.EntryOk(key, Run(actions).outbox.entries[key].doc, Run(actions).ledger.created);
  }

  /**
   From every reachable state, a broker that refuses a pending event `n` times in a row receives it
   `n` times more, while its document counts them modulo 2^32. Where the two agreed before, the
   event has been sent more often than it counts if and only if it was sent 2^32 times or more.
   */
  lemma SendsOutrunAttempts(actions: seq<Action>, pid: nat, key: EventKey, now: Instant, n: nat)
    requires var o := Run(actions).outbox;
      pid !in o.publishers && key in o.entries && o.entries[key].doc.status.Pending?
    ensures Ready(Run(actions).outbox, pid, key)
    ensures var o, o' := Run(actions).outbox, Run(actions + Rounds(Run(actions), pid, key, now, n)).outbox;
      && key in o'.entries && Sent(o', key) == Sent(o, key) + n
      && o'.entries[key].doc.attempts == (o.entries[key].doc.attempts + n) % ATTEMPT_LIMIT
      && (Sent(o, key) == o.entries[key].doc.attempts ==>
            (Sent(o', key) > o'.entries[key].doc.attempts <==> Sent(o', key) >= ATTEMPT_LIMIT))
  {
    hide Run, Play, Rounds, Ready, Sent;
    PendingIsReady(actions, pid, key);
    RoundsCount(Run(actions), pid, key, now, n);
    RunThenPlay(actions, Rounds(Run(actions), pid, key, now, n));
  }

  /**
   From every reachable state, a cycle on one pending event, run alone with a working store, sends it
   once and counts one attempt; the event ends published now if the broker acknowledged it, pending
   if it refused, and still claimed if the cycle broke off. Nothing else changes.
   */
  lemma CycleOnPending(actions: seq<Action>, pid: nat, key: EventKey, delivery: Delivery, now: Instant)
    requires var o := Run(actions).outbox;
      pid !in o.publishers && key in o.entries && o.entries[key].doc.status.Pending?
    ensures var w, w' := Run(actions), Run(actions + Cycle(Run(actions).outbox, pid, key, delivery, now));
      w' == w.(outbox := w'.outbox) && CycleDone(w.outbox, w'.outbox, pid, key, delivery, now)
  {
    hide Run, Play, Cycle, Ready, CycleDone;
    PendingIsReady(actions, pid, key);
    PlayCycle(Run(actions), pid, key, delivery, now);
    RunThenPlay(actions, Cycle(Run(actions).outbox, pid, key, delivery, now));
  }
}
