/**
 The outbox under any number of publishers, crashes and ambiguous replaces: each entry stays
 the creation event it was inserted as, and its status, its tokens and the broker agree.
 */
module OutboxInvariant {
  import opened Wrappers
  import opened Timestamp
  import opened Domain
  import opened Idempotency
  import opened World

  /** The entry is one of the two events of a creation, under that event's key. */
  predicate EntryOf(c: Creation, key: EventKey, entry: OutboxEntry) {
    var keys, events := KeysOfEvents(c), CreatedEvents(c.req.cmd, c.pending);
    && entry.org == key.0
    && ((key == keys.0 && entry.event == events[0]) || (key == keys.1 && entry.event == events[1]))
  }

  predicate EntryOk(key: EventKey, entry: OutboxEntry, created: map<ReservationKey, Creation>) {
    (key.0, entry.aggregate) in created && EntryOf(created[(key.0, entry.aggregate)], key, entry)
  }

  ghost predicate EntriesOk(o: Outbox, created: map<ReservationKey, Creation>) {
    forall key :: key in o.entries ==> o.entries[key].cas < o.nextCas && EntryOk(key, o.entries[key].doc, created)
  }

  predicate Stores(o: Outbox, key: EventKey, aggregate: Id) {
    key in o.entries && o.entries[key].doc.aggregate == aggregate
  }

  /** Both events of every creation are stored. */
  ghost predicate EventsStored(o: Outbox, created: map<ReservationKey, Creation>) {
    forall r :: r in created ==>
      Stores(o, KeysOfEvents(created[r]).0, r.1) && Stores(o, KeysOfEvents(created[r]).1, r.1)
  }

  /** The status of an entry, its token and attempts, and what the broker has seen of it. */
  predicate StatusOk(o: Outbox, key: EventKey)
    requires key in o.entries
  {
    var stored, granted := o.entries[key], TokensOf(o.grants, key);
    && stored.doc.attempts == |granted| % 0x1_0000_0000
    && (stored.doc.status.Publishing? ==> stored.cas in granted)
    && (stored.doc.status.Published? ==> key in o.delivered)
    && (stored.doc.status.Published? <==> stored.doc.publishedAt.Some?)
  }

  /** Each token is granted once and used for one send at most. */
  ghost predicate TrafficOk(o: Outbox) {
    && (forall key :: key in o.entries ==> StatusOk(o, key))
    && o.grants.Keys <= o.entries.Keys && o.calls.Keys == o.sent.Keys && o.delivered <= o.calls.Keys
    && (forall key, token :: key in o.grants && token in o.grants[key] ==> token < o.nextCas)
    && (forall key :: key in o.calls ==>
          {} != o.calls[key] <= TokensOf(o.grants, key) && o.sent[key] == |o.calls[key]|)
  }

  function Held(pc: PublishPc): Option<nat> {
    match pc
    case ClaimRead => None
    case ClaimWrite(_) => None
    case Sending(token) => Some(token)
    case MarkRead(token) => Some(token)
    case MarkWrite(token, _) => Some(token)
    case ReleaseRead(token) => Some(token)
    case ReleaseWrite(token, _) => Some(token)
  }

  predicate HeldOk(o: Outbox, key: EventKey, token: nat) {
    && key in o.entries && token in TokensOf(o.grants, key) && token < o.nextCas
    && (Matches(o, key, token) ==> o.entries[key].doc.status.Publishing?)
  }

  predicate PublisherOk(p: Publisher, o: Outbox) {
    p.rest != [] &&
    var key := p.rest[0].key;
    match p.pc
    case ClaimRead => true
    case ClaimWrite(entry) =>
      && key in o.entries && p.rest[0].token < o.nextCas && entry.status.Pending?
      && (Matches(o, key, p.rest[0].token) ==> o.entries[key].doc == entry)
    case Sending(token) => HeldOk(o, key, token) && token !in TokensOf(o.calls, key)
    case MarkRead(token) => HeldOk(o, key, token) && key in o.delivered
    case MarkWrite(token, entry) =>
      && HeldOk(o, key, token) && key in o.delivered && entry.status.Publishing?
      && (Matches(o, key, token) ==> o.entries[key].doc == entry)
    case ReleaseRead(token) => HeldOk(o, key, token)
    case ReleaseWrite(token, entry) =>
      && HeldOk(o, key, token) && entry.status.Publishing?
      && (Matches(o, key, token) ==> o.entries[key].doc == entry)
  }

  predicate HoldApart(p: Publisher, q: Publisher) {
    Held(p.pc).Some? && Held(q.pc).Some? ==> Held(p.pc) != Held(q.pc)
  }

  /** No two publishers hold one token. */
  ghost predicate Apart(publishers: map<nat, Publisher>) {
    forall i, j :: i in publishers && j in publishers && i != j ==> HoldApart(publishers[i], publishers[j])
  }

  ghost predicate PublishersOk(publishers: map<nat, Publisher>, o: Outbox) {
    Apart(publishers) && forall i :: i in publishers ==> PublisherOk(publishers[i], o)
  }

  ghost predicate OutboxInv(o: Outbox, created: map<ReservationKey, Creation>) {
    EntriesOk(o, created) && EventsStored(o, created) && TrafficOk(o) && PublishersOk(o.publishers, o)
  }

  // ----- The kinds of change -----

  /** A replace of one entry that keeps its event; only claiming grants the new token. */
  predicate Replaced(o: Outbox, o': Outbox, key: EventKey, entry: OutboxEntry) {
    && key in o.entries && o'.entries == o.entries[key := Stored(entry, o.nextCas)] && o'.nextCas == o.nextCas + 1
    && entry.org == o.entries[key].doc.org && entry.aggregate == o.entries[key].doc.aggregate
    && entry.event == o.entries[key].doc.event
    && o'.calls == o.calls && o'.sent == o.sent && o'.delivered == o.delivered
    && (entry.status.Published? ==> key in o.delivered) && (entry.status.Published? <==> entry.publishedAt.Some?)
    && if entry.status.Publishing?
       then o'.grants == o.grants[key := TokensOf(o.grants, key) + {o.nextCas}]
            && entry.attempts == NextAttempt(o.entries[key].doc.attempts)
       else o'.grants == o.grants && entry.attempts == o.entries[key].doc.attempts
  }

  predicate SameRecord(o: Outbox, o': Outbox) {
    && o'.entries == o.entries && o'.nextCas == o.nextCas && o'.grants == o.grants
  }

  predicate SentOnce(o: Outbox, o': Outbox, key: EventKey, token: nat) {
    && SameRecord(o, o') && o.delivered <= o'.delivered <= o.delivered + {key}
    && token !in TokensOf(o.calls, key) && token in TokensOf(o.grants, key)
    && o'.calls == o.calls[key := TokensOf(o.calls, key) + {token}]
    && o'.sent == o.sent[key := (if key in o.sent then o.sent[key] else 0) + 1]
  }

  predicate InsertsEvents(o: Outbox, o': Outbox, c: Creation) {
    && KeysOfEvents(c).0 !in o.entries && KeysOfEvents(c).1 !in o.entries
    && o' == InsertEvents(o, c).(publishers := o'.publishers)
  }

  lemma AttemptStep(n: nat)
    ensures NextAttempt(n % 0x1_0000_0000) == (n + 1) % 0x1_0000_0000
  {
  }

  lemma SameEvent(key: EventKey, before: OutboxEntry, after: OutboxEntry, created: map<ReservationKey, Creation>)
    requires EntryOk(key, before, created)
    requires after.org == before.org && after.aggregate == before.aggregate && after.event == before.event
    ensures EntryOk(key, after, created)
  {
    hide KeysOfEvents, CreatedEvents;
  }

  lemma ReplacedEntries(o: Outbox, o': Outbox, key: EventKey, entry: OutboxEntry, created: map<ReservationKey, Creation>)
    requires EntriesOk(o, created) && EventsStored(o, created) && Replaced(o, o', key, entry)
    ensures EntriesOk(o', created) && EventsStored(o', created)
  {
    hide KeysOfEvents, EntryOk, TokensOf, NextAttempt;
    SameEvent(key, o.entries[key].doc, entry, created);
    forall r | r in created
      ensures Stores(o', KeysOfEvents(created[r]).0, r.1) && Stores(o', KeysOfEvents(created[r]).1, r.1)
    {
      assert Stores(o, KeysOfEvents(created[r]).0, r.1) && Stores(o, KeysOfEvents(created[r]).1, r.1);
    }
  }

  lemma ReplacedTraffic(o: Outbox, o': Outbox, key: EventKey, entry: OutboxEntry)
    requires TrafficOk(o) && Replaced(o, o', key, entry)
    ensures TrafficOk(o')
  {
    hide NextAttempt, StatusOk;
    ReplacedStatus(o, o', key, entry);
    forall k | k in o'.entries
      ensures StatusOk(o', k)
    {
      if k != key { OtherStatus(o, o', k); }
    }
  }

  lemma ReplacedStatus(o: Outbox, o': Outbox, key: EventKey, entry: OutboxEntry)
    requires TrafficOk(o) && Replaced(o, o', key, entry)
    ensures StatusOk(o', key)
  {
    hide NextAttempt;
    assert StatusOk(o, key);
    assert o.nextCas !in TokensOf(o.grants, key);
    AttemptStep(|TokensOf(o.grants, key)|);
  }

  lemma OtherStatus(o: Outbox, o': Outbox, key: EventKey)
    requires key in o.entries && StatusOk(o, key) && key in o'.entries && o'.entries[key] == o.entries[key]
    requires TokensOf(o'.grants, key) == TokensOf(o.grants, key) && o.delivered <= o'.delivered
    ensures StatusOk(o', key)
  {
  }

  /** A replace under a fresh token leaves publishers that hold other tokens in order. */
  lemma ReplacedPublisher(o: Outbox, o': Outbox, key: EventKey, entry: OutboxEntry, p: Publisher)
    requires Replaced(o, o', key, entry) && PublisherOk(p, o)
    ensures PublisherOk(p, o')
  {
    hide NextAttempt;
    assert forall k :: TokensOf(o.grants, k) <= TokensOf(o'.grants, k);
  }

  lemma SentStatus(o: Outbox, o': Outbox, key: EventKey, token: nat)
    requires TrafficOk(o) && SentOnce(o, o', key, token)
    ensures forall k :: k in o'.entries ==> StatusOk(o', k)
  {
    hide NextAttempt;
    forall k | k in o'.entries
      ensures StatusOk(o', k)
    {
      assert StatusOk(o, k);
    }
  }

  lemma SentTraffic(o: Outbox, o': Outbox, key: EventKey, token: nat)
    requires TrafficOk(o) && SentOnce(o, o', key, token)
    ensures TrafficOk(o')
  {
    hide NextAttempt, StatusOk, TokensOf;
    SentStatus(o, o', key, token);
    forall k | k in o'.calls
      ensures {} != o'.calls[k] <= TokensOf(o'.grants, k) && o'.sent[k] == |o'.calls[k]|
    {
      SentCalls(o, o', key, token, k);
    }
  }

  lemma SentCalls(o: Outbox, o': Outbox, key: EventKey, token: nat, k: EventKey)
    requires TrafficOk(o) && SentOnce(o, o', key, token) && k in o'.calls
    ensures k in o'.sent && {} != o'.calls[k] <= TokensOf(o'.grants, k) && o'.sent[k] == |o'.calls[k]|
  {
    hide StatusOk;
    if k == key {
      assert token in o'.calls[k];
    } else {
      assert k in o.calls;
    }
  }

  lemma SentPublisher(o: Outbox, o': Outbox, key: EventKey, token: nat, p: Publisher)
    requires SentOnce(o, o', key, token) && PublisherOk(p, o) && Held(p.pc) != Some(token)
    ensures PublisherOk(p, o')
  {
  }

  lemma NewEntriesOk(o: Outbox, o': Outbox, c: Creation)
    requires InsertsEvents(o, o', c)
    ensures var keys, created := KeysOfEvents(c), map[KeyOfReservation(c.req) := c];
      && Stores(o', keys.0, c.req.cmd.ids.reservation) && Stores(o', keys.1, c.req.cmd.ids.reservation)
      && EntryOk(keys.0, o'.entries[keys.0].doc, created) && EntryOk(keys.1, o'.entries[keys.1].doc, created)
      && o'.entries[keys.0].cas < o'.nextCas && o'.entries[keys.1].cas < o'.nextCas
  {
    hide CreatedEvents;
    assert KeysOfEvents(c).0 != KeysOfEvents(c).1;
  }

  lemma MoreCreated(key: EventKey, entry: OutboxEntry, created: map<ReservationKey, Creation>,
                    created': map<ReservationKey, Creation>)
    requires EntryOk(key, entry, created) && forall r :: r in created ==> r in created' && created'[r] == created[r]
    ensures EntryOk(key, entry, created')
  {
    hide EntryOf;
  }

  lemma InsertedEntries(o: Outbox, o': Outbox, c: Creation, created: map<ReservationKey, Creation>)
    requires EntriesOk(o, created) && EventsStored(o, created) && InsertsEvents(o, o', c)
    requires KeyOfReservation(c.req) !in created
    ensures EntriesOk(o', created[KeyOfReservation(c.req) := c]) && EventsStored(o', created[KeyOfReservation(c.req) := c])
  {
    hide EntryOk, KeysOfEvents, CreatedEvents, NewEntry;
    var created' := created[KeyOfReservation(c.req) := c];
    var keys := KeysOfEvents(c);
    NewEntriesOk(o, o', c);
    forall key | key in o'.entries
      ensures o'.entries[key].cas < o'.nextCas && EntryOk(key, o'.entries[key].doc, created')
    {
      if key == keys.0 || key == keys.1 {
        MoreCreated(key, o'.entries[key].doc, map[KeyOfReservation(c.req) := c], created');
      } else {
        MoreCreated(key, o'.entries[key].doc, created, created');
      }
    }
    forall r | r in created'
      ensures Stores(o', KeysOfEvents(created'[r]).0, r.1) && Stores(o', KeysOfEvents(created'[r]).1, r.1)
    {
      if r in created && r != KeyOfReservation(c.req) {
        assert Stores(o, KeysOfEvents(created[r]).0, r.1) && Stores(o, KeysOfEvents(created[r]).1, r.1);
      }
    }
  }

  lemma InsertedStatus(o: Outbox, o': Outbox, c: Creation)
    requires TrafficOk(o) && InsertsEvents(o, o', c)
    ensures forall k :: k in o'.entries ==> StatusOk(o', k)
  {
    hide CreatedEvents;
    forall k | k in o'.entries
      ensures StatusOk(o', k)
    {
      if k in o.entries { assert StatusOk(o, k); }
    }
  }

  lemma InsertedTraffic(o: Outbox, o': Outbox, c: Creation)
    requires TrafficOk(o) && InsertsEvents(o, o', c)
    ensures TrafficOk(o')
  {
    hide CreatedEvents, KeysOfEvents, StatusOk;
    InsertedStatus(o, o', c);
  }

  lemma InsertedPublisher(o: Outbox, o': Outbox, c: Creation, p: Publisher)
    requires InsertsEvents(o, o', c) && PublisherOk(p, o)
    ensures PublisherOk(p, o')
  {
    hide CreatedEvents;
  }

  // ----- Every step keeps the invariant -----

  ghost predicate BooksOk(o: Outbox, created: map<ReservationKey, Creation>) {
    EntriesOk(o, created) && EventsStored(o, created) && TrafficOk(o)
  }

  ghost predicate OthersOk(o: Outbox, pid: nat) {
    Apart(o.publishers) && forall i :: i in o.publishers && i != pid ==> PublisherOk(o.publishers[i], o)
  }

  /** Which publishers are at work matters neither to the record nor to each other's state. */
  lemma SameBooksOk(o: Outbox, o': Outbox, created: map<ReservationKey, Creation>)
    requires BooksOk(o, created) && o' == o.(publishers := o'.publishers)
    ensures BooksOk(o', created)
  {
    hide EntriesOk, EventsStored;
    SentEntries(o, o', created);
    forall key | key in o'.entries
      ensures StatusOk(o', key)
    {
      assert StatusOk(o, key);
    }
  }

  lemma SameRecordPublisher(o: Outbox, o': Outbox, p: Publisher)
    requires PublisherOk(p, o) && o' == o.(publishers := o'.publishers)
    ensures PublisherOk(p, o')
  {
  }

  lemma EndKeeps(o: Outbox, pid: nat, created: map<ReservationKey, Creation>)
    requires BooksOk(o, created) && OthersOk(o, pid)
    ensures OutboxInv(EndCycle(o, pid), created)
  {
    hide EntriesOk, EventsStored, TrafficOk, PublisherOk, HoldApart;
    var o' := EndCycle(o, pid);
    SameBooksOk(o, o', created);
    forall i | i in o'.publishers
      ensures PublisherOk(o'.publishers[i], o')
    {
      SameRecordPublisher(o, o', o.publishers[i]);
    }
  }

  lemma MoveKeeps(o: Outbox, pid: nat, rest: seq<Candidate>, pc: PublishPc, created: map<ReservationKey, Creation>)
    requires BooksOk(o, created) && OthersOk(o, pid) && PublisherOk(Publisher(rest, pc), o)
    requires forall i :: i in o.publishers && i != pid ==> HoldApart(o.publishers[i], Publisher(rest, pc))
    requires forall i :: i in o.publishers && i != pid ==> HoldApart(Publisher(rest, pc), o.publishers[i])
    ensures OutboxInv(MovePublisher(o, pid, rest, pc), created)
  {
    hide EntriesOk, EventsStored, TrafficOk, PublisherOk, HoldApart;
    var o' := MovePublisher(o, pid, rest, pc);
    SameBooksOk(o, o', created);
    forall i | i in o'.publishers
      ensures PublisherOk(o'.publishers[i], o')
    {
      SameRecordPublisher(o, o', o'.publishers[i]);
    }
  }

  lemma NextKeeps(o: Outbox, pid: nat, rest: seq<Candidate>, created: map<ReservationKey, Creation>)
    requires BooksOk(o, created) && OthersOk(o, pid) && rest != []
    ensures OutboxInv(NextCandidate(o, pid, rest), created)
  {
    hide BooksOk, OutboxInv, OthersOk;
    if |rest| == 1 {
      EndKeeps(o, pid, created);
    } else {
      MoveKeeps(o, pid, rest[1..], ClaimRead, created);
    }
  }

  /** The publisher keeps the token it holds, or holds none. */
  lemma KeepToken(o: Outbox, pid: nat, p: Publisher)
    requires Apart(o.publishers) && pid in o.publishers && (Held(p.pc) == None || Held(p.pc) == Held(o.publishers[pid].pc))
    ensures forall i :: i in o.publishers && i != pid ==> HoldApart(o.publishers[i], p) && HoldApart(p, o.publishers[i])
  {
    hide Held;
    forall i | i in o.publishers && i != pid
      ensures HoldApart(o.publishers[i], p) && HoldApart(p, o.publishers[i])
    {
      assert HoldApart(o.publishers[i], o.publishers[pid]);
    }
  }

  lemma HeldBelow(p: Publisher, o: Outbox)
    requires PublisherOk(p, o) && Held(p.pc).Some?
    ensures HeldOk(o, p.rest[0].key, Held(p.pc).value)
  {
  }

  /** A fresh token is held by nobody. */
  lemma FreshToken(o: Outbox, pid: nat, p: Publisher)
    requires PublishersOk(o.publishers, o) && Held(p.pc) == Some(o.nextCas)
    ensures forall i :: i in o.publishers && i != pid ==> HoldApart(o.publishers[i], p) && HoldApart(p, o.publishers[i])
  {
    hide Held, PublisherOk;
    forall i | i in o.publishers && i != pid
      ensures HoldApart(o.publishers[i], p) && HoldApart(p, o.publishers[i])
    {
      if Held(o.publishers[i].pc).Some? { HeldBelow(o.publishers[i], o); }
    }
  }

  lemma ReplacedKeeps(o: Outbox, o': Outbox, key: EventKey, entry: OutboxEntry, created: map<ReservationKey, Creation>)
    requires OutboxInv(o, created) && Replaced(o, o', key, entry) && o'.publishers == o.publishers
    ensures OutboxInv(o', created)
  {
    hide EntriesOk, EventsStored, TrafficOk, Apart, PublisherOk, Replaced;
    ReplacedEntries(o, o', key, entry, created);
    ReplacedTraffic(o, o', key, entry);
    forall i | i in o'.publishers
      ensures PublisherOk(o'.publishers[i], o')
    {
      ReplacedPublisher(o, o', key, entry, o.publishers[i]);
    }
  }

  lemma InsertedKeeps(o: Outbox, c: Creation, created: map<ReservationKey, Creation>)
    requires OutboxInv(o, created) && KeyOfReservation(c.req) !in created
    requires KeysOfEvents(c).0 !in o.entries && KeysOfEvents(c).1 !in o.entries
    ensures OutboxInv(InsertEvents(o, c), created[KeyOfReservation(c.req) := c])
  {
    hide EntriesOk, EventsStored, TrafficOk, Apart, PublisherOk, KeysOfEvents, CreatedEvents, NewEntry;
    var o' := InsertEvents(o, c);
    InsertedEntries(o, o', c, created);
    InsertedTraffic(o, o', c);
    forall i | i in o'.publishers
      ensures PublisherOk(o'.publishers[i], o')
    {
      InsertedPublisher(o, o', c, o.publishers[i]);
    }
  }

  lemma SentKeeps(o: Outbox, pid: nat, key: EventKey, token: nat, delivery: Delivery, created: map<ReservationKey, Creation>)
    requires OutboxInv(o, created) && pid in o.publishers && o.publishers[pid].pc == Sending(token)
    requires o.publishers[pid].rest != [] && o.publishers[pid].rest[0].key == key
    ensures BooksOk(Send(o, key, token, delivery), created) && OthersOk(Send(o, key, token, delivery), pid)
    ensures HeldOk(Send(o, key, token, delivery), key, token)
  {
    hide EntriesOk, EventsStored, TrafficOk, SentOnce;
    var o' := Send(o, key, token, delivery);
    SendIsSentOnce(o, pid, token, delivery);
    SentEntries(o, o', created);
    SentTraffic(o, o', key, token);
    SentOthers(o, o', pid, key, token);
  }

  lemma SendIsSentOnce(o: Outbox, pid: nat, token: nat, delivery: Delivery)
    requires pid in o.publishers && PublisherOk(o.publishers[pid], o) && o.publishers[pid].pc == Sending(token)
    ensures var key := o.publishers[pid].rest[0].key;
      SentOnce(o, Send(o, key, token, delivery), key, token) && HeldOk(Send(o, key, token, delivery), key, token)
  {
  }

  lemma SentEntries(o: Outbox, o': Outbox, created: map<ReservationKey, Creation>)
    requires EntriesOk(o, created) && EventsStored(o, created) && SameRecord(o, o')
    ensures EntriesOk(o', created) && EventsStored(o', created)
  {
    hide EntryOk, KeysOfEvents;
    forall r | r in created
      ensures Stores(o', KeysOfEvents(created[r]).0, r.1) && Stores(o', KeysOfEvents(created[r]).1, r.1)
    {
      assert Stores(o, KeysOfEvents(created[r]).0, r.1) && Stores(o, KeysOfEvents(created[r]).1, r.1);
    }
  }

  lemma SentOthers(o: Outbox, o': Outbox, pid: nat, key: EventKey, token: nat)
    requires PublishersOk(o.publishers, o) && pid in o.publishers && Held(o.publishers[pid].pc) == Some(token)
    requires SentOnce(o, o', key, token) && o'.publishers == o.publishers
    ensures OthersOk(o', pid)
  {
    hide SentOnce, PublisherOk, Held;
    forall i | i in o.publishers && i != pid
      ensures PublisherOk(o.publishers[i], o')
    {
      assert HoldApart(o.publishers[i], o.publishers[pid]);
      SentPublisher(o, o', key, token, o.publishers[i]);
    }
  }

  lemma AllOthers(o: Outbox, pid: nat, created: map<ReservationKey, Creation>)
    requires OutboxInv(o, created)
    ensures BooksOk(o, created) && OthersOk(o, pid)
  {
    hide EntriesOk, EventsStored, TrafficOk, Apart, PublisherOk;
  }

  /** The state of one publisher and the event it is working on. */
  predicate At(o: Outbox, pid: nat, pc: PublishPc) {
    pid in o.publishers && o.publishers[pid].pc == pc && PublisherOk(o.publishers[pid], o)
  }

  lemma ClaimReadKeeps(o: Outbox, pid: nat, io: Io, delivery: Delivery, now: Instant, created: map<ReservationKey, Creation>)
    requires OutboxInv(o, created) && At(o, pid, ClaimRead)
    ensures OutboxInv(PublisherStep(o, pid, io, delivery, now), created)
  {
    hide BooksOk, OutboxInv, OthersOk, MovePublisher, EndCycle, NextCandidate;
    AllOthers(o, pid, created);
    var rest := o.publishers[pid].rest;
    var key := rest[0].key;
    EndKeeps(o, pid, created);
    NextKeeps(o, pid, rest, created);
    if Matches(o, key, rest[0].token) && o.entries[key].doc.status.Pending? {
      var pc := ClaimWrite(o.entries[key].doc);
      assert o.entries[key].cas < o.nextCas by { EntryBelow(o, created, key); }
      KeepTokenOf(o, pid, Publisher(rest, pc), created);
      MoveKeeps(o, pid, rest, pc, created);
    }
  }

  lemma EntryBelow(o: Outbox, created: map<ReservationKey, Creation>, key: EventKey)
    requires OutboxInv(o, created) && key in o.entries
    ensures o.entries[key].cas < o.nextCas
  {
    hide EventsStored, TrafficOk, PublishersOk, EntryOk;
  }

  lemma KeepTokenOf(o: Outbox, pid: nat, p: Publisher, created: map<ReservationKey, Creation>)
    requires OutboxInv(o, created) && pid in o.publishers
    requires Held(p.pc) == None || Held(p.pc) == Held(o.publishers[pid].pc)
    ensures forall i :: i in o.publishers && i != pid ==> HoldApart(o.publishers[i], p) && HoldApart(p, o.publishers[i])
  {
    hide EntriesOk, EventsStored, TrafficOk, PublisherOk, Apart, Held;
    KeepToken(o, pid, p);
  }

  /** Claiming grants a token that no send has used. */
  lemma ClaimGrants(o: Outbox, key: EventKey, entry: OutboxEntry)
    requires TrafficOk(o) && key in o.entries
    ensures var o' := ClaimEntry(o, key, entry); HeldOk(o', key, o.nextCas) && o.nextCas !in TokensOf(o'.calls, key)
  {
    hide NextAttempt, StatusOk;
    assert o.nextCas !in TokensOf(o.grants, key);
  }

  lemma ClaimReplaces(o: Outbox, rest: seq<Candidate>, entry: OutboxEntry, created: map<ReservationKey, Creation>)
    requires OutboxInv(o, created) && rest != [] && PublisherOk(Publisher(rest, ClaimWrite(entry)), o)
    requires Matches(o, rest[0].key, rest[0].token)
    ensures var o' := ClaimEntry(o, rest[0].key, entry);
      OutboxInv(o', created) && PublisherOk(Publisher(rest, Sending(o.nextCas)), o') && o'.publishers == o.publishers
  {
    hide EntriesOk, EventsStored, PublishersOk, NextAttempt;
    var key := rest[0].key;
    var o' := ClaimEntry(o, key, entry);
    ClaimGrants(o, key, entry);
    hide TrafficOk, HeldOk;
    ReplacedKeeps(o, o', key, o'.entries[key].doc, created);
  }

  lemma ClaimWriteKeeps(o: Outbox, pid: nat, io: Io, delivery: Delivery, now: Instant, entry: OutboxEntry,
                        created: map<ReservationKey, Creation>)
    requires OutboxInv(o, created) && At(o, pid, ClaimWrite(entry))
    ensures OutboxInv(PublisherStep(o, pid, io, delivery, now), created)
  {
    hide BooksOk, OutboxInv, OthersOk, MovePublisher, EndCycle, NextCandidate, ClaimEntry;
    AllOthers(o, pid, created);
    var rest := o.publishers[pid].rest;
    EndKeeps(o, pid, created);
    NextKeeps(o, pid, rest, created);
    if Matches(o, rest[0].key, rest[0].token) {
      ClaimReplaces(o, rest, entry, created);
      var o' := ClaimEntry(o, rest[0].key, entry);
      AllOthers(o', pid, created);
      EndKeeps(o', pid, created);
      NextKeeps(o', pid, rest, created);
      FreshTokenOf(o, pid, Publisher(rest, Sending(o.nextCas)), created);
      MoveKeeps(o', pid, rest, Sending(o.nextCas), created);
    }
  }

  lemma FreshTokenOf(o: Outbox, pid: nat, p: Publisher, created: map<ReservationKey, Creation>)
    requires OutboxInv(o, created) && Held(p.pc) == Some(o.nextCas)
    ensures forall i :: i in o.publishers && i != pid ==> HoldApart(o.publishers[i], p) && HoldApart(p, o.publishers[i])
  {
    hide EntriesOk, EventsStored, TrafficOk, PublisherOk, Apart, Held;
    FreshToken(o, pid, p);
  }

  lemma SendingKeeps(o: Outbox, pid: nat, io: Io, delivery: Delivery, now: Instant, token: nat,
                     created: map<ReservationKey, Creation>)
    requires OutboxInv(o, created) && At(o, pid, Sending(token))
    ensures OutboxInv(PublisherStep(o, pid, io, delivery, now), created)
  {
    hide BooksOk, OutboxInv, OthersOk, MovePublisher, EndCycle, NextCandidate, HeldOk;
    var rest := o.publishers[pid].rest;
    var key := rest[0].key;
    var o' := Send(o, key, token, delivery);
    SentKeeps(o, pid, key, token, delivery, created);
    match delivery
    case Acknowledged =>
      KeepTokenOf(o, pid, Publisher(rest, MarkRead(token)), created);
      MoveKeeps(o', pid, rest, MarkRead(token), created);
    case Refused =>
      KeepTokenOf(o, pid, Publisher(rest, ReleaseRead(token)), created);
      MoveKeeps(o', pid, rest, ReleaseRead(token), created);
    case Aborted => EndKeeps(o', pid, created);
  }

  lemma ReadKeeps(o: Outbox, pid: nat, io: Io, delivery: Delivery, now: Instant, token: nat,
                  created: map<ReservationKey, Creation>)
    requires OutboxInv(o, created) && (At(o, pid, MarkRead(token)) || At(o, pid, ReleaseRead(token)))
    ensures OutboxInv(PublisherStep(o, pid, io, delivery, now), created)
  {
    hide BooksOk, OutboxInv, OthersOk, MovePublisher, EndCycle, NextCandidate;
    AllOthers(o, pid, created);
    var rest := o.publishers[pid].rest;
    var key := rest[0].key;
    NextKeeps(o, pid, rest, created);
    if Matches(o, key, token) && o.entries[key].doc.status.Publishing? {
      var entry := o.entries[key].doc;
      var pc := if o.publishers[pid].pc.MarkRead? then MarkWrite(token, entry) else ReleaseWrite(token, entry);
      KeepTokenOf(o, pid, Publisher(rest, pc), created);
      MoveKeeps(o, pid, rest, pc, created);
    }
  }

  lemma WriteKeeps(o: Outbox, pid: nat, io: Io, delivery: Delivery, now: Instant, token: nat, entry: OutboxEntry,
                   created: map<ReservationKey, Creation>)
    requires OutboxInv(o, created) && (At(o, pid, MarkWrite(token, entry)) || At(o, pid, ReleaseWrite(token, entry)))
    ensures OutboxInv(PublisherStep(o, pid, io, delivery, now), created)
  {
    hide BooksOk, OutboxInv, OthersOk, NextCandidate, MovePublisher, EndCycle;
    AllOthers(o, pid, created);
    var rest := o.publishers[pid].rest;
    var key := rest[0].key;
    NextKeeps(o, pid, rest, created);
    if Matches(o, key, token) {
      var o' := if o.publishers[pid].pc.MarkWrite? then MarkEntry(o, key, entry, now) else ReleaseEntry(o, key, entry);
      ReplacedKeeps(o, o', key, o'.entries[key].doc, created);
      AllOthers(o', pid, created);
      NextKeeps(o', pid, rest, created);
    }
  }

  /** Every step of a publisher keeps the invariant. */
  lemma PublisherStepKeeps(o: Outbox, pid: nat, io: Io, delivery: Delivery, now: Instant, created: map<ReservationKey, Creation>)
    requires OutboxInv(o, created)
    ensures OutboxInv(PublisherStep(o, pid, io, delivery, now), created)
  {
    if pid in o.publishers {
      PublisherAt(o, pid, created);
      hide OutboxInv, PublisherStep, PublisherOk;
      match o.publishers[pid].pc
      case ClaimRead => ClaimReadKeeps(o, pid, io, delivery, now, created);
      case ClaimWrite(entry) => ClaimWriteKeeps(o, pid, io, delivery, now, entry, created);
      case Sending(token) => SendingKeeps(o, pid, io, delivery, now, token, created);
      case MarkRead(token) => ReadKeeps(o, pid, io, delivery, now, token, created);
      case MarkWrite(token, entry) => WriteKeeps(o, pid, io, delivery, now, token, entry, created);
      case ReleaseRead(token) => ReadKeeps(o, pid, io, delivery, now, token, created);
      case ReleaseWrite(token, entry) => WriteKeeps(o, pid, io, delivery, now, token, entry, created);
    }
  }

  lemma PublisherAt(o: Outbox, pid: nat, created: map<ReservationKey, Creation>)
    requires OutboxInv(o, created) && pid in o.publishers
    ensures At(o, pid, o.publishers[pid].pc)
  {
    hide EntriesOk, EventsStored, TrafficOk, PublisherOk, Apart;
  }

  /** The start of a cycle on any candidates. */
  lemma BeginKeeps(o: Outbox, pid: nat, candidates: seq<Candidate>, created: map<ReservationKey, Creation>)
    requires OutboxInv(o, created) && candidates != []
    ensures OutboxInv(MovePublisher(o, pid, candidates, ClaimRead), created) && OutboxInv(EndCycle(o, pid), created)
  {
    hide BooksOk, OutboxInv, OthersOk, MovePublisher, EndCycle;
    AllOthers(o, pid, created);
    MoveKeeps(o, pid, candidates, ClaimRead, created);
    EndKeeps(o, pid, created);
  }

  // ----- What a step may do to an entry -----

  /** Claimed when pending, marked published only after an acknowledged send, or released; never anything else. */
  predicate EntryMoves(e: OutboxEntry, e': OutboxEntry, acknowledged: bool, now: Instant) {
    || e' == e
    || (e.status.Pending? && e' == e.(status := Publishing, attempts := NextAttempt(e.attempts)))
    || (e.status.Publishing? && acknowledged && e' == e.(status := Published, publishedAt := Some(now)))
    || (e.status.Publishing? && e' == e.(status := Pending, publishedAt := None))
  }

  predicate Moves(o: Outbox, o': Outbox, key: EventKey, now: Instant) {
    && key in o.entries && key in o'.entries
    && EntryMoves(o.entries[key].doc, o'.entries[key].doc, key in o.delivered, now)
    && (o.entries[key].doc.status.Published? ==> o'.entries[key] == o.entries[key])
  }

  predicate Replaces(pc: PublishPc) { pc.ClaimWrite? || pc.MarkWrite? || pc.ReleaseWrite? }

  lemma NextSameEntries(o: Outbox, pid: nat, rest: seq<Candidate>)
    requires rest != []
    ensures NextCandidate(o, pid, rest).entries == o.entries
  {
  }

  lemma OtherStepsMove(o: Outbox, pid: nat, io: Io, delivery: Delivery, now: Instant)
    requires pid !in o.publishers || !Replaces(o.publishers[pid].pc)
    ensures PublisherStep(o, pid, io, delivery, now).entries == o.entries
  {
    hide NextCandidate, Matches;
    if pid in o.publishers && o.publishers[pid].rest != [] {
      NextSameEntries(o, pid, o.publishers[pid].rest);
    }
  }

  lemma ClaimMoves(o: Outbox, pid: nat, io: Io, delivery: Delivery, now: Instant, key: EventKey)
    requires pid in o.publishers && PublisherOk(o.publishers[pid], o) && o.publishers[pid].pc.ClaimWrite? && key in o.entries
    ensures Moves(o, PublisherStep(o, pid, io, delivery, now), key, now)
  {
    hide NextCandidate, NextAttempt, TokensOf;
    var rest := o.publishers[pid].rest;
    NextSameEntries(o, pid, rest);
    NextSameEntries(ClaimEntry(o, rest[0].key, o.publishers[pid].pc.entry), pid, rest);
  }

  lemma EndMoves(o: Outbox, pid: nat, io: Io, delivery: Delivery, now: Instant, key: EventKey)
    requires pid in o.publishers && PublisherOk(o.publishers[pid], o) && key in o.entries
    requires o.publishers[pid].pc.MarkWrite? || o.publishers[pid].pc.ReleaseWrite?
    ensures Moves(o, PublisherStep(o, pid, io, delivery, now), key, now)
  {
    hide NextCandidate, NextAttempt, TokensOf;
    var rest := o.publishers[pid].rest;
    NextSameEntries(o, pid, rest);
    match o.publishers[pid].pc
    case MarkWrite(_, entry) => NextSameEntries(MarkEntry(o, rest[0].key, entry, now), pid, rest);
    case ReleaseWrite(_, entry) => NextSameEntries(ReleaseEntry(o, rest[0].key, entry), pid, rest);
  }

  /** A published entry never changes again. */
  lemma EntrySteps(o: Outbox, pid: nat, io: Io, delivery: Delivery, now: Instant, created: map<ReservationKey, Creation>,
                   key: EventKey)
    requires OutboxInv(o, created) && key in o.entries
    ensures Moves(o, PublisherStep(o, pid, io, delivery, now), key, now)
  {
    hide OutboxInv, PublisherOk, PublisherStep, NextAttempt;
    if pid !in o.publishers || !Replaces(o.publishers[pid].pc) {
      OtherStepsMove(o, pid, io, delivery, now);
    } else {
      PublisherAt(o, pid, created);
      if o.publishers[pid].pc.ClaimWrite? {
        ClaimMoves(o, pid, io, delivery, now, key);
      } else {
        EndMoves(o, pid, io, delivery, now, key);
      }
    }
  }

  /** Both events of a creation are found under their keys. */
  lemma StoredEvents(o: Outbox, created: map<ReservationKey, Creation>, r: ReservationKey)
    requires OutboxInv(o, created) && r in created
    ensures var keys := KeysOfEvents(created[r]);
      && Stores(o, keys.0, r.1) && EntryOk(keys.0, o.entries[keys.0].doc, created)
      && Stores(o, keys.1, r.1) && EntryOk(keys.1, o.entries[keys.1].doc, created)
  {
    hide TrafficOk, PublishersOk, EntryOk, KeysOfEvents;
    var keys := KeysOfEvents(created[r]);
    assert Stores(o, keys.0, r.1) && Stores(o, keys.1, r.1);
  }
}
