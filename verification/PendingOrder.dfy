/** The pending batches that publishing cycles draw from the outbox of any run. */
module PendingOrder {
  import opened Wrappers
  import opened Timestamp
  import opened Domain
  import opened Idempotency
  import opened World
  import opened CreationInvariant
  import opened SystemInvariant
  import opened SystemTheorems
  import History = ReservationHistory
  import Books = OutboxInvariant
  import D = OutboxDocuments
  import opened OutboxQueries

  /** The document an entry is stored as; `None` if it cannot be written. */
  function DocumentOf(entry: OutboxEntry): Option<D.OutboxDocument> {
    var inserted :- D.ToDocument(entry.org, entry.aggregate, entry.event);
    if !Printable(inserted.occurredAt) then None
    else Some(inserted.(status := entry.status, attemptCount := entry.attempts, publishedAt := entry.publishedAt))
  }

  /** The documents of the outbox collection. */
  function DocumentsOf(o: Outbox): set<D.OutboxDocument> {
    set key | key in o.entries && DocumentOf(o.entries[key].doc).Some? :: DocumentOf(o.entries[key].doc).value
  }

  lemma PendingDocument(entry: OutboxEntry, d: D.OutboxDocument)
    requires entry.status.Pending? && entry.publishedAt == None && DocumentOf(entry) == Some(d)
    ensures D.ToDocument(entry.org, entry.aggregate, entry.event).Some?
    ensures d == D.ToDocument(entry.org, entry.aggregate, entry.event).value.(attemptCount := entry.attempts)
    ensures Printable(d.occurredAt) && d.occurredAt == entry.event.at
  {
    hide D.PayloadFor, D.ValidPayload, Printable;
  }

  lemma NotYetPublished(actions: seq<Action>, key: EventKey)
    requires key in Run(actions).outbox.entries && Run(actions).outbox.entries[key].doc.status.Pending?
    ensures Run(actions).outbox.entries[key].doc.publishedAt == None
  {
    hide Run;
    OutboxIsTruthful(actions, key);
  }

  /**
   After every run, of the two creation events of a reservation that are still pending, the second
   is in a batch drawn from the outbox only together with the first, and later.
   */
  lemma PendingInOrder(actions: seq<Action>, key: ReservationKey, limit: nat, rows: seq<D.OutboxDocument>, j: nat)
    requires key in Run(actions).ledger.created && j < |rows|
    requires PendingBatch(DocumentsOf(Run(actions).outbox), limit, rows)
    requires var o, keys := Run(actions).outbox, KeysOfEvents(Run(actions).ledger.created[key]);
      && keys.0 in o.entries && o.entries[keys.0].doc.status.Pending? && DocumentOf(o.entries[keys.0].doc).Some?
      && keys.1 in o.entries && DocumentOf(o.entries[keys.1].doc) == Some(rows[j])
    ensures var o, keys := Run(actions).outbox, KeysOfEvents(Run(actions).ledger.created[key]);
      exists i :: 0 <= i < j && DocumentOf(o.entries[keys.0].doc) == Some(rows[i])
  {
    hide Run, DocumentOf, D.ToDocument, PendingBatch, KeysOfEvents, Printable, Created;
    var o, c := Run(actions).outbox, Run(actions).ledger.created[key];
    var keys := KeysOfEvents(c);
    var first, second := DocumentOf(o.entries[keys.0].doc).value, rows[j];
    StoredAreCreated(actions);
    CreationIsAtomic(actions, key);
    RowIsPending(DocumentsOf(o), limit, rows, j, o.entries[keys.1].doc);
    NotYetPublished(actions, keys.0);
    NotYetPublished(actions, keys.1);
    PendingDocument(o.entries[keys.0].doc, first);
    PendingDocument(o.entries[keys.1].doc, second);
    assert first in DocumentsOf(o);
    var r := Created(c.req.cmd, c.pending);
    CreatedUnderKey(actions, key);
    CreationEventsInOrder(DocumentsOf(o), limit, rows, r, c.req.cmd.ids.createdEvent, SecondEventId(c.req.cmd, c.pending),
                          c.req.cmd.at, first, second, o.entries[keys.0].doc.attempts, o.entries[keys.1].doc.attempts, j);
  }

  lemma RowIsPending(stored: set<D.OutboxDocument>, limit: nat, rows: seq<D.OutboxDocument>, j: nat, entry: OutboxEntry)
    requires PendingBatch(stored, limit, rows) && j < |rows| && DocumentOf(entry) == Some(rows[j])
    ensures entry.status.Pending?
  {
    hide D.ToDocument;
  }

  lemma CreatedUnderKey(actions: seq<Action>, key: ReservationKey)
    requires key in Run(actions).ledger.created
    ensures var c := Run(actions).ledger.created[key];
      (Created(c.req.cmd, c.pending).org, Created(c.req.cmd, c.pending).id) == key
  {
    hide Run, RecordsOk, KeysOk, CreatorsOk, ResponsesOk, PreparedOk, History.HistoryInv, Books.OutboxInv;
    RunParts(actions);
  }
}
