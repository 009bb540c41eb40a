/** The pending batch of a publishing cycle: ordered by the stored text of the time, then by event identifier. */
module OutboxQueries {
  import opened Wrappers
  import opened Text
  import opened Timestamp
  import opened Domain
  import opened Documents
  import opened OutboxDocuments

  /** `ORDER BY occurredAt, eventId` on documents whose time was printed. */
  predicate Before(a: OutboxDocument, b: OutboxDocument) {
    && TimeText(a.occurredAt).Some? && TimeText(b.occurredAt).Some?
    && (Less(TimeText(a.occurredAt).value, TimeText(b.occurredAt).value)
        || (a.occurredAt == b.occurredAt && Less(a.eventId, b.eventId)))
  }

  /** A result of `find_pending(limit)`: sorted, all pending, each once, and cut off at `limit` but not before. */
  ghost predicate PendingBatch(stored: set<OutboxDocument>, limit: nat, rows: seq<OutboxDocument>) {
    && |rows| <= limit
    && (forall i :: 0 <= i < |rows| ==> rows[i] in stored && rows[i].status.Pending?)
    && (forall i, j :: 0 <= i < j < |rows| ==> rows[i] != rows[j] && !Before(rows[j], rows[i]))
    && (forall d :: d in stored && d.status.Pending? && d !in rows ==> |rows| == limit)
    && (forall d, i :: d in stored && d.status.Pending? && d !in rows && 0 <= i < |rows| ==> !Before(d, rows[i]))
  }

  /** Stored order is time order, and among events of one time the order of their identifiers. */
  lemma BeforeExactly(a: OutboxDocument, b: OutboxDocument)
    requires Printable(a.occurredAt) && Printable(b.occurredAt)
    ensures Before(a, b) <==>
      a.occurredAt < b.occurredAt || (a.occurredAt == b.occurredAt && Less(a.eventId, b.eventId))
  {
    hide Print, Printable, Less;
    PrintOrder(a.occurredAt, b.occurredAt);
  }

  lemma InsertedAt(org: Id, aggregate: Id, e: Event)
    requires ToDocument(org, aggregate, e).Some?
    ensures ToDocument(org, aggregate, e).value.occurredAt == e.at && ToDocument(org, aggregate, e).value.status.Pending?
  {
    hide PayloadFor, OutboxDocument.Valid, EventKindText;
  }

  lemma FirstInBatch(stored: set<OutboxDocument>, limit: nat, rows: seq<OutboxDocument>, first: OutboxDocument, j: nat)
    requires PendingBatch(stored, limit, rows) && first in stored && first.status.Pending? && j < |rows|
    requires Before(first, rows[j]) && first != rows[j]
    ensures exists i :: 0 <= i < j && rows[i] == first
  {
    hide Before;
    assert first in rows;
    var i :| 0 <= i < |rows| && rows[i] == first;
  }

  /** The pending document that comes before all others heads every batch. */
  lemma EarliestFirst(stored: set<OutboxDocument>, limit: nat, rows: seq<OutboxDocument>, first: OutboxDocument)
    requires PendingBatch(stored, limit, rows) && limit > 0 && first in stored && first.status.Pending?
    requires forall d :: d in stored && d.status.Pending? && d != first ==> Before(first, d)
    ensures rows != [] && rows[0] == first
  {
    hide Before;
    assert rows != [];
    if rows[0] != first {
      FirstInBatch(stored, limit, rows, first, 0);
    }
  }

  /**
   If both creation events of a reservation are pending and the second is in the batch, the
   first is in it too, and earlier: a creation stamps them strictly increasing, and claiming and
   releasing an event changes no more of its pending document than the number of attempts.
   */
  lemma CreationEventsInOrder(stored: set<OutboxDocument>, limit: nat, rows: seq<OutboxDocument>, r: ReservationState,
                              createdId: Id, secondId: Id, at: Instant, first: OutboxDocument, second: OutboxDocument,
                              m: nat, n: nat, j: nat)
    requires at < INT64_MAX && Printable(at) && Printable(at + 1)
    requires var inserted := ToDocument(r.org, r.id, CreationEvents(r, createdId, secondId, at)[0]);
      inserted.Some? && first == inserted.value.(attemptCount := m)
    requires var inserted := ToDocument(r.org, r.id, CreationEvents(r, createdId, secondId, at)[1]);
      inserted.Some? && second == inserted.value.(attemptCount := n)
    requires PendingBatch(stored, limit, rows) && first in stored && j < |rows| && rows[j] == second
    ensures exists i :: 0 <= i < j && rows[i] == first
  {
    var events := CreationEvents(r, createdId, secondId, at);
    assert events[0].at == at && events[1].at == at + 1;
    hide ToDocument, CreationEvents, Before;
    InsertedAt(r.org, r.id, events[0]);
    InsertedAt(r.org, r.id, events[1]);
    BeforeExactly(first, second);
    FirstInBatch(stored, limit, rows, first, j);
  }
}
