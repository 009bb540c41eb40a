/**
 The canonical encodings hashed into idempotency fingerprints and idempotency document keys:
 every field under an 8-byte big-endian length prefix. Strings are byte strings; one `char`
 stands for one byte. SHA-256 itself is not part of this model: equality of hashes is taken
 as equality of the encodings below.
 */
module Encoding {
  import opened Wrappers
  import opened Timestamp
  import opened Domain

  datatype Operation = CreateReservation | ExtendReservation

  function OperationText(operation: Operation): string {
    match operation
    case CreateReservation => "CREATE_RESERVATION"
    case ExtendReservation => "EXTEND_RESERVATION"
  }

  function OperationFromText(text: string): Option<Operation> {
    if text == "CREATE_RESERVATION" then Some(CreateReservation)
    else if text == "EXTEND_RESERVATION" then Some(ExtendReservation)
    else None
  }

  /** Sizes of C++ strings fit 64 bits. */
  predicate Sized(s: string) {
    |s| < UINT64_LIMIT
  }

  datatype FingerprintInput = FingerprintInput(
    resource: string, creator: string, start: Instant, end: Instant, purpose: string, kind: Kind, maintenance: bool)
  {
    predicate Valid() { Sized(resource) && Sized(creator) && Sized(purpose) }
  }

  datatype Scope = Scope(org: Id, creator: Id, operation: Operation, key: Id)
  {
    predicate Valid() { Sized(org) && Sized(creator) && Sized(key) }
  }

  // ----- The encodings as functions -----

  /** `v >> (8 * bytes)`. */
  function ShiftRight(v: nat, bytes: nat): nat {
    if bytes == 0 then v else ShiftRight(v, bytes - 1) / 256
  }

  /** The `width` low bytes of `v`, most significant first. */
  function BigEndian(v: nat, width: nat): (s: string)
    ensures |s| == width
  {
    if width == 0 then "" else BigEndian(v / 256, width - 1) + [(v % 256) as char]
  }

  function Field(s: string): string {
    BigEndian(|s|, 8) + s
  }

  function TimeField(t: Instant): string {
    BigEndian(t % UINT64_LIMIT, 8)
  }

  const FINGERPRINT_ID := "HAVEN_CREATE_RESERVATION_FINGERPRINT_V1"
  const SCOPE_ID := "HAVEN_IDEMPOTENCY_SCOPE_V1"

  function Flag(b: bool): string {
    if b then "\U{0001}" else "\0"
  }

  function RequestEncoding(r: FingerprintInput): string {
    Field(FINGERPRINT_ID) + (Field(r.resource) + (Field(r.creator) + WindowEncoding(r)))
  }

  function WindowEncoding(r: FingerprintInput): string {
    TimeField(r.start) + (TimeField(r.end) + DetailsEncoding(r))
  }

  function DetailsEncoding(r: FingerprintInput): string {
    Field(r.purpose) + (Field(KindText(r.kind)) + Flag(r.maintenance))
  }

  function ScopeEncoding(s: Scope): string {
    Field(SCOPE_ID) + (Field(s.org) + (Field(s.creator) + KeyEncoding(s)))
  }

  function KeyEncoding(s: Scope): string {
    Field(OperationText(s.operation)) + Field(s.key)
  }

  // ----- The loops that build them -----

  /** The `std::string` both encoders append to. */
  class Buffer {
    var bytes: string

    constructor ()
      ensures bytes == ""
    {
      bytes := "";
    }

    method AppendUnsigned64(value: nat)
      requires value < UINT64_LIMIT
      modifies this
      ensures bytes == old(bytes) + BigEndian(value, 8)
    {
      var shift := 56;
      ShiftedOut(value);
      while shift >= 0
        invariant -8 <= shift <= 56 && shift % 8 == 0
        invariant bytes == old(bytes) + BigEndian(ShiftRight(value, (shift + 8) / 8), (56 - shift) / 8)
      {
        assert (shift + 8) / 8 == shift / 8 + 1;
        bytes := bytes + [(ShiftRight(value, shift / 8) % 256) as char];
        shift := shift - 8;
      }
    }

    method AppendString(value: string)
      requires Sized(value)
      modifies this
      ensures bytes == old(bytes) + Field(value)
    {
      AppendUnsigned64(|value|);
      bytes := bytes + value;
    }

    method AppendTimestamp(t: Instant)
      modifies this
      ensures bytes == old(bytes) + TimeField(t)
    {
      AppendUnsigned64(t % UINT64_LIMIT);
    }
  }

  lemma ShiftedOut(value: nat)
    requires value < UINT64_LIMIT
    ensures ShiftRight(value, 8) == 0
  {
    assert ShiftRight(value, 1) < 0x100_0000_0000_0000;
    assert ShiftRight(value, 2) < 0x1_0000_0000_0000;
    assert ShiftRight(value, 3) < 0x100_0000_0000;
    assert ShiftRight(value, 4) < 0x1_0000_0000;
    assert ShiftRight(value, 5) < 0x100_0000;
    assert ShiftRight(value, 6) < 0x1_0000;
    assert ShiftRight(value, 7) < 0x100;
  }

  lemma Regroup(a: string, b: string, c: string, d: string, e: string, f: string, g: string, h: string)
    ensures "" + a + b + c + d + e + f + g + h == a + (b + (c + (d + (e + (f + (g + h))))))
  {
  }

  /** `canonical_encoding` of a creation request. */
  method CanonicalRequest(r: FingerprintInput) returns (encoded: string)
    requires r.Valid()
    ensures encoded == RequestEncoding(r)
  {
    var buffer := new Buffer();
    buffer.AppendString(FINGERPRINT_ID);
    buffer.AppendString(r.resource);
    buffer.AppendString(r.creator);
    buffer.AppendTimestamp(r.start);
    buffer.AppendTimestamp(r.end);
    buffer.AppendString(r.purpose);
    buffer.AppendString(KindText(r.kind));
    buffer.bytes := buffer.bytes + Flag(r.maintenance);
    encoded := buffer.bytes;
    Regroup(Field(FINGERPRINT_ID), Field(r.resource), Field(r.creator), TimeField(r.start), TimeField(r.end),
            Field(r.purpose), Field(KindText(r.kind)), Flag(r.maintenance));
  }

  /** The canonical form of a scope inside `idempotency_document_key`. */
  method CanonicalScope(s: Scope) returns (encoded: string)
    requires s.Valid()
    ensures encoded == ScopeEncoding(s)
  {
    var buffer := new Buffer();
    buffer.AppendString(SCOPE_ID);
    buffer.AppendString(s.org);
    buffer.AppendString(s.creator);
    buffer.AppendString(OperationText(s.operation));
    buffer.AppendString(s.key);
    encoded := buffer.bytes;
    Regroup(Field(SCOPE_ID), Field(s.org), Field(s.creator), Field(OperationText(s.operation)), Field(s.key), "", "", "");
    assert Field(s.key) + ("" + ("" + "")) == Field(s.key);
  }

  // ----- The bytes -----

  /** Eight bytes that hold a number, most significant first. */
  lemma BigEndianBytes(v: nat)
    requires v < UINT64_LIMIT
    ensures var s := BigEndian(v, 8);
      && (forall i :: 0 <= i < 8 ==> s[i] as int < 256)
      && v == s[0] as int * 0x100_0000_0000_0000 + s[1] as int * 0x1_0000_0000_0000 + s[2] as int * 0x100_0000_0000
              + s[3] as int * 0x1_0000_0000 + s[4] as int * 0x100_0000 + s[5] as int * 0x1_0000 + s[6] as int * 0x100
              + s[7] as int
  {
    var v1, v2, v3 := v / 256, v / 256 / 256, v / 256 / 256 / 256;
    var v4, v5, v6 := v3 / 256, v3 / 256 / 256, v3 / 256 / 256 / 256;
    var v7 := v6 / 256;
    assert v7 < 256 && BigEndian(v7, 1) == BigEndian(v7 / 256, 0) + [(v7 % 256) as char];
    assert BigEndian(v6, 2) == BigEndian(v7, 1) + [(v6 % 256) as char];
    assert BigEndian(v5, 3) == BigEndian(v6, 2) + [(v5 % 256) as char];
    assert BigEndian(v4, 4) == BigEndian(v5, 3) + [(v4 % 256) as char];
    assert BigEndian(v3, 5) == BigEndian(v4, 4) + [(v3 % 256) as char];
    assert BigEndian(v2, 6) == BigEndian(v3, 5) + [(v2 % 256) as char];
    assert BigEndian(v1, 7) == BigEndian(v2, 6) + [(v1 % 256) as char];
    assert BigEndian(v, 8) == BigEndian(v1, 7) + [(v % 256) as char];
  }

  /** The two's complement of an instant, on eight bytes. */
  function Complement(t: Instant): string {
    BigEndian(if t < 0 then 0x1_0000_0000_0000_0000 + t else t, 8)
  }

  function Prefixed(s: string): string { BigEndian(|s|, 8) + s }

  /** The canonical bytes of a request, field after field. */
  lemma RequestLayout(r: FingerprintInput)
    ensures RequestEncoding(r)
            == Prefixed("HAVEN_CREATE_RESERVATION_FINGERPRINT_V1") + Prefixed(r.resource) + Prefixed(r.creator)
               + Complement(r.start) + Complement(r.end) + Prefixed(r.purpose)
               + Prefixed(if r.kind.Maintenance? then "MAINTENANCE" else "STANDARD")
               + (if r.maintenance then "\U{0001}" else "\0")
  {
    hide BigEndian;
    ComplementField(r.start);
    ComplementField(r.end);
    Regroup(Field(FINGERPRINT_ID), Field(r.resource), Field(r.creator), TimeField(r.start), TimeField(r.end),
            Field(r.purpose), Field(KindText(r.kind)), Flag(r.maintenance));
  }

  /** The canonical bytes of a scope. */
  lemma ScopeLayout(s: Scope)
    ensures ScopeEncoding(s)
            == Prefixed("HAVEN_IDEMPOTENCY_SCOPE_V1") + Prefixed(s.org) + Prefixed(s.creator)
               + Prefixed(if s.operation.CreateReservation? then "CREATE_RESERVATION" else "EXTEND_RESERVATION")
               + Prefixed(s.key)
  {
    hide BigEndian;
    Regroup(Field(SCOPE_ID), Field(s.org), Field(s.creator), Field(OperationText(s.operation)), Field(s.key), "", "", "");
  }

  lemma ComplementField(t: Instant)
    ensures TimeField(t) == Complement(t)
  {
    hide BigEndian;
  }

  // ----- A decoder -----

  function Number(s: string): (v: nat)
  {
    if s == "" then 0 else 256 * Number(s[..|s| - 1]) + s[|s| - 1] as int
  }

  function TakeField(s: string): Option<(string, string)> {
    if |s| < 8 then None
    else
      var size := Number(s[..8]);
      if |s| < 8 + size then None else Some((s[8..8 + size], s[8 + size..]))
  }

  function TakeTime(s: string): Option<(Instant, string)> {
    if |s| < 8 then None
    else
      var v := Number(s[..8]);
      var t := if v > INT64_MAX then v - UINT64_LIMIT else v;
      if INT64_MIN <= t <= INT64_MAX then Some((t, s[8..])) else None
  }

  function DecodeRequest(s: string): Option<FingerprintInput> {
    var id := TakeField(s);
    if id == None then None else
    var resource := TakeField(id.value.1);
    if resource == None then None else
    var creator := TakeField(resource.value.1);
    if creator == None then None else
    DecodeWindow(resource.value.0, creator.value.0, creator.value.1)
  }

  function DecodeWindow(resource: string, creator: string, s: string): Option<FingerprintInput> {
    var start := TakeTime(s);
    if start == None then None else
    var end := TakeTime(start.value.1);
    if end == None then None else
    var purpose := TakeField(end.value.1);
    if purpose == None then None else
    var kind := TakeField(purpose.value.1);
    if kind == None || KindFromText(kind.value.0) == None || |kind.value.1| != 1 then None else
    Some(FingerprintInput(resource, creator, start.value.0, end.value.0, purpose.value.0,
                          KindFromText(kind.value.0).value, kind.value.1 != "\0"))
  }

  function DecodeScope(s: string): Option<Scope> {
    var id := TakeField(s);
    if id == None then None else
    var org := TakeField(id.value.1);
    if org == None || org.value.0 == "" then None else
    var creator := TakeField(org.value.1);
    if creator == None || creator.value.0 == "" then None else
    DecodeKey(org.value.0, creator.value.0, creator.value.1)
  }

  function DecodeKey(org: Id, creator: Id, s: string): Option<Scope> {
    var operation := TakeField(s);
    if operation == None || OperationFromText(operation.value.0) == None then None else
    var key := TakeField(operation.value.1);
    if key == None || key.value.0 == "" then None else
    Some(Scope(org, creator, OperationFromText(operation.value.0).value, key.value.0))
  }

  lemma {:induction false} NumberBigEndian(v: nat, width: nat)
    requires ShiftRight(v, width) == 0
    ensures Number(BigEndian(v, width)) == v
    decreases width
  {
    if width > 0 {
      var s := BigEndian(v, width);
      ShiftFirst(v, width - 1);
      NumberBigEndian(v / 256, width - 1);
      assert s[..|s| - 1] == BigEndian(v / 256, width - 1);
    }
  }

  lemma {:induction false} ShiftFirst(v: nat, bytes: nat)
    ensures ShiftRight(v / 256, bytes) == ShiftRight(v, bytes + 1)
  {
    if bytes > 0 { ShiftFirst(v, bytes - 1); }
  }

  lemma TakeOneField(s: string, rest: string)
    requires Sized(s)
    ensures TakeField(Field(s) + rest) == Some((s, rest))
  {
    ShiftedOut(|s|);
    NumberBigEndian(|s|, 8);
    assert (Field(s) + rest)[..8] == BigEndian(|s|, 8);
  }

  lemma TakeOneTime(t: Instant, rest: string)
    ensures TakeTime(TimeField(t) + rest) == Some((t, rest))
  {
    hide BigEndian, Number, ShiftRight;
    ShiftedOut(t % UINT64_LIMIT);
    NumberBigEndian(t % UINT64_LIMIT, 8);
    assert (TimeField(t) + rest)[..8] == TimeField(t);
  }

  lemma DecodeWindowEncoding(r: FingerprintInput)
    requires r.Valid()
    ensures DecodeWindow(r.resource, r.creator, WindowEncoding(r)) == Some(r)
  {
    hide TakeField, TakeTime, Field, TimeField, KindFromText;
    TakeOneTime(r.start, TimeField(r.end) + DetailsEncoding(r));
    TakeOneTime(r.end, DetailsEncoding(r));
    TakeOneField(r.purpose, Field(KindText(r.kind)) + Flag(r.maintenance));
    TakeOneField(KindText(r.kind), Flag(r.maintenance));
    KindTexts(r.kind);
  }

  lemma OperationTexts(operation: Operation)
    ensures OperationFromText(OperationText(operation)) == Some(operation)
  {
    assert OperationText(CreateReservation)[0] != OperationText(ExtendReservation)[0];
  }

  /** The decoder recovers every request from its canonical encoding. */
  lemma DecodeRequestEncoding(r: FingerprintInput)
    requires r.Valid()
    ensures DecodeRequest(RequestEncoding(r)) == Some(r)
  {
    TakeOneField(FINGERPRINT_ID, Field(r.resource) + (Field(r.creator) + WindowEncoding(r)));
    TakeOneField(r.resource, Field(r.creator) + WindowEncoding(r));
    TakeOneField(r.creator, WindowEncoding(r));
    DecodeWindowEncoding(r);
  }

  lemma DecodeKeyEncoding(s: Scope)
    requires s.Valid()
    ensures DecodeKey(s.org, s.creator, KeyEncoding(s)) == Some(s)
  {
    TakeOneField(OperationText(s.operation), Field(s.key));
    TakeOneField(s.key, "");
    assert Field(s.key) + "" == Field(s.key);
    OperationTexts(s.operation);
  }

  /** The decoder recovers every scope from its canonical encoding. */
  lemma DecodeScopeEncoding(s: Scope)
    requires s.Valid()
    ensures DecodeScope(ScopeEncoding(s)) == Some(s)
  {
    TakeOneField(SCOPE_ID, Field(s.org) + (Field(s.creator) + KeyEncoding(s)));
    TakeOneField(s.org, Field(s.creator) + KeyEncoding(s));
    TakeOneField(s.creator, KeyEncoding(s));
    DecodeKeyEncoding(s);
  }

  /** Two requests with one fingerprint are one request. */
  lemma RequestInjective(a: FingerprintInput, b: FingerprintInput)
    requires a.Valid() && b.Valid() && RequestEncoding(a) == RequestEncoding(b)
    ensures a == b
  {
    DecodeRequestEncoding(a);
    DecodeRequestEncoding(b);
  }

  /** Two scopes with one document key are one scope. */
  lemma ScopeInjective(a: Scope, b: Scope)
    requires a.Valid() && b.Valid() && ScopeEncoding(a) == ScopeEncoding(b)
    ensures a == b
  {
    DecodeScopeEncoding(a);
    DecodeScopeEncoding(b);
  }
}
