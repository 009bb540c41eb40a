/** The idempotency record as an object that a handler completes once. */
module IdempotencyRecords {
  import opened Wrappers
  import opened Timestamp
  import opened Encoding
  import opened Idempotency

  datatype RecordError = NotProcessing | WrongSnapshot

  /** `validate_success_snapshot`. */
  predicate SucceedsWith(ids: Identifiers, createdAt: Instant, snapshot: Snapshot) {
    snapshot.SuccessSnapshot? && snapshot.id == ids.reservation && snapshot.createdAt == createdAt
  }

  class IdempotencyRecord {
    const scope: Scope
    const fingerprint: string
    const ids: Identifiers
    const createdAt: Instant
    var status: RecordStatus
    var result: Option<Snapshot>

    function Value(): Record
      reads this
    {
      Record(scope, fingerprint, ids, createdAt, status, result)
    }

    constructor Processing(scope: Scope, fingerprint: string, ids: Identifiers, createdAt: Instant)
      ensures Value() == Record(scope, fingerprint, ids, createdAt, RecordStatus.Processing, None)
    {
      this.scope, this.fingerprint, this.ids, this.createdAt := scope, fingerprint, ids, createdAt;
      status, result := RecordStatus.Processing, None;
    }

    /** A processing record takes a matching success; anything else changes nothing. */
    method RecordSucceeded(snapshot: Snapshot) returns (error: Option<RecordError>)
      modifies this
      ensures error == None <==> old(status).Processing? && SucceedsWith(ids, createdAt, snapshot)
      ensures Value() == if error == None then CompletedRecord(old(Value()), snapshot, true) else old(Value())
      ensures old(status).Processing? ==>
        (error == None <==> ValidateCompletion(old(Value()), fingerprint, snapshot, true) == None)
    {
      if status != RecordStatus.Processing { return Some(NotProcessing); }
      if !SucceedsWith(ids, createdAt, snapshot) { return Some(WrongSnapshot); }
      status := Succeeded;
      result := Some(snapshot);
      error := None;
    }

    method RecordFailedPermanently(snapshot: Snapshot) returns (error: Option<RecordError>)
      modifies this
      ensures error == None <==> old(status).Processing? && !snapshot.SuccessSnapshot?
      ensures Value() == if error == None then CompletedRecord(old(Value()), snapshot, false) else old(Value())
      ensures old(status).Processing? ==>
        (error == None <==> ValidateCompletion(old(Value()), fingerprint, snapshot, false) == None)
    {
      if status != RecordStatus.Processing { return Some(NotProcessing); }
      if snapshot.SuccessSnapshot? { return Some(WrongSnapshot); }
      status := FailedPermanent;
      result := Some(snapshot);
      error := None;
    }
  }
}
