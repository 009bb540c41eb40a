/** The handlers over stored documents keep the capacity of every resource when they run one after another. */
module ServiceCapacity {
  import opened Wrappers
  import opened Domain
  import opened Idempotency
  import opened Handlers
  import opened OutboxDocuments
  import opened Schedule
  import opened ReservationHandlers
  import opened CreationStore

  /** An edit handler, whatever it answers. */
  lemma EditKeepsCapacity(s: State, book': Book, c: EditCommand, result: EditResult)
    requires ScheduleInv(s) && EditHandled(s.book, book', c, result)
    ensures ScheduleInv(s.(book := book'))
  {
    hide ScheduleInv, EditHandled;
    HandledIsScheduled(s.book, book', c, result);
    EditKeeps(s, c);
    assert s.(book := s.book) == s;
  }

  /** The creation handler on the stored resource, whatever it answers. */
  lemma CreationKeepsCapacity(s: State, docs: map<Key, StoredDocument>, docs': map<Key, StoredDocument>,
                              outbox: map<Key, OutboxDocument>, outbox': map<Key, OutboxDocument>, c: Command,
                              tokenReadable: bool, result: CreationResult, nextCas: nat)
    requires ScheduleInv(s) && s.book == DecodedBook(docs) && CountFits(s.book, c) && DocumentsOk(docs, nextCas)
    requires CreationHandled(docs, docs', outbox, outbox', c, Lookup(s, (c.org, c.resource)), tokenReadable, result)
    ensures ScheduleInv(s.(book := DecodedBook(docs')))
  {
    hide CountFits, ScheduleInv, CreationHandled, DecodedBook, DocumentsOk, AfterCreation;
    CreationIsScheduled(docs, docs', outbox, outbox', c, Lookup(s, (c.org, c.resource)), tokenReadable, result, nextCas);
    CreateKeeps(s, c);
    assert s.(book := s.book) == s;
  }
}
