/** Signed publication records: their canonical bytes, and the checks a record goes through before it is used. */
module IpnsRecord {
  import opened Common
  import opened Codec

  const NANOSECONDS: int := 1_000_000_000

  /** Nanoseconds since the Unix epoch, as far as 64-bit seconds reach. */
  type Time = t: int | -TWO_63 * NANOSECONDS <= t < TWO_63 * NANOSECONDS witness 0

  /** Signed 64-bit nanoseconds. */
  type Duration = d: int | -TWO_63 <= d < TWO_63 witness 0

  /** The zero value of a time: midnight, 1 January of year 1. */
  const ZERO_TIME: Time := -62_135_596_800 * NANOSECONDS

  /** The difference of two times, saturating at the ends of the 64-bit range. */
  function Sub(a: Time, b: Time): Duration {
    if a - b < -TWO_63 then -TWO_63 else if a - b >= TWO_63 then TWO_63 - 1 else a - b
  }

  datatype Cid = Cid(version: nat, dagProtobuf: bool, multihash: Bytes)

  /** What the naming libraries decide: which names are canonical, and how content identifiers are written. */
  datatype Naming = Naming(canonicalName: Bytes -> bool, decodeCid: Bytes -> Option<Cid>, cidText: Cid -> Bytes) {

    /** A content identifier written and read again is the same, and its text has no slash. */
    ghost predicate Coherent() {
      forall c :: decodeCid(cidText(c)) == Some(c) && cidText(c) != [] && SLASH !in cidText(c)
    }

    /** The identifier a text canonically denotes. */
    function CanonicalRoot(text: Bytes): (r: Option<Cid>)
      ensures r.Some? ==> cidText(r.value) == text && r.value.version == 1
    {
      match decodeCid(text)
      case None => None
      case Some(c) => if c.version == 1 && cidText(c) == text then Some(c) else None
    }
  }

  const SLASH: Byte := 47
  const IPFS_PREFIX: Bytes := [47, 105, 112, 102, 115, 47]
  const BOUNDARY_FORMAT: Bytes := Ascii("sovereignite-ipns-boundary-v1")
  const SIGNATURE_DOMAIN: Bytes := Ascii("github.com/sovereignite/sovereignite/ipns-record/v1\0")
  const ENVELOPE_DOMAIN: Bytes := Ascii("github.com/sovereignite/sovereignite/ipns-envelope/v1\0")

  datatype SignedRecord = SignedRecord(
    format: Bytes,
    name: Bytes,
    value: Bytes,
    sequence: nat,
    issuedAt: Time,
    validUntil: Time,
    ttl: Duration,
    signature: Bytes)

  /** The root a record points to. */
  function RootCid(nm: Naming, r: SignedRecord): Option<Cid> {
    if !(IPFS_PREFIX <= r.value) then None
    else
      var encoded := r.value[|IPFS_PREFIX|..];
      if encoded == [] || SLASH in encoded then None else nm.CanonicalRoot(encoded)
  }

  predicate WholeSecond(t: Time) {
    t != ZERO_TIME && t % NANOSECONDS == 0
  }

  /** The checks a record passes before it has canonical bytes. */
  predicate Encodable(nm: Naming, r: SignedRecord) {
    && r.format == BOUNDARY_FORMAT
    && nm.canonicalName(r.name)
    && RootCid(nm, r).Some?
    && r.sequence != 0
    && WholeSecond(r.issuedAt) && WholeSecond(r.validUntil)
    && r.validUntil > r.issuedAt
    && 0 < r.ttl <= Sub(r.validUntil, r.issuedAt)
    && r.ttl % NANOSECONDS == 0
  }

  /** The sizes a 64-bit machine can hold. */
  predicate Representable(r: SignedRecord) {
    && |r.format| < TWO_64 && |r.name| < TWO_64 && |r.value| < TWO_64 && |r.signature| < TWO_64
    && r.sequence < TWO_64
  }

  /** Seconds since the epoch; rounds down. */
  function Unix(t: Time): (s: int)
    ensures -TWO_63 <= s < TWO_63
  {
    t / NANOSECONDS
  }

  /** The signed bytes of a record, behind a domain. */
  function PayloadBytes(domain: Bytes, r: SignedRecord): Bytes {
    domain + (Field(r.format) + (Field(r.name) + (Field(r.value) + (Uint64(r.sequence)
    + (Int64(Unix(r.issuedAt)) + (Int64(Unix(r.validUntil)) + Int64(r.ttl)))))))
  }

  /** Builds the signed bytes by appending field after field. */
  method UnsignedPayload(nm: Naming, r: SignedRecord) returns (payload: Option<Bytes>)
    ensures payload.Some? <==> Encodable(nm, r)
    ensures payload.Some? ==> payload.value == PayloadBytes(SIGNATURE_DOMAIN, r)
  {
    if !Encodable(nm, r) { return None; }
    var bytes := SIGNATURE_DOMAIN;
    bytes := bytes + Field(r.format);
    bytes := bytes + Field(r.name);
    bytes := bytes + Field(r.value);
    bytes := bytes + Uint64(r.sequence);
    bytes := bytes + Int64(Unix(r.issuedAt));
    bytes := bytes + Int64(Unix(r.validUntil));
    bytes := bytes + Int64(r.ttl);
    AppendsAgree(SIGNATURE_DOMAIN, Field(r.format), Field(r.name), Field(r.value), Uint64(r.sequence),
                 Int64(Unix(r.issuedAt)), Int64(Unix(r.validUntil)), Int64(r.ttl));
    return Some(bytes);
  }

  lemma AppendsAgree(a: Bytes, b: Bytes, c: Bytes, d: Bytes, e: Bytes, f: Bytes, g: Bytes, h: Bytes)
    ensures a + b + c + d + e + f + g + h == a + (b + (c + (d + (e + (f + (g + h))))))
  {
  }

  /** Reads signed bytes back, given the length of their domain; the signature is not among them. */
  function ReadPayload(domainLength: nat, bytes: Bytes): Option<Parsed<SignedRecord>> {
    if |bytes| < domainLength then None
    else
      var format := ReadField(bytes[domainLength..]);
      if format.None? then None
      else
        var name := ReadField(format.value.rest);
        if name.None? then None
        else
          var value := ReadField(name.value.rest);
          if value.None? then None
          else ReadNumbers(format.value.value, name.value.value, value.value.value, value.value.rest)
  }

  function ReadNumbers(format: Bytes, name: Bytes, value: Bytes, bytes: Bytes): Option<Parsed<SignedRecord>> {
    var sequence := ReadUint64(bytes);
    if sequence.None? then None
    else
      var issued := ReadInt64(sequence.value.rest);
      if issued.None? then None
      else
        var valid := ReadInt64(issued.value.rest);
        if valid.None? then None
        else
          var ttl := ReadInt64(valid.value.rest);
          if ttl.None? || !InRange(issued.value.value) || !InRange(valid.value.value)
             || !InRange(ttl.value.value) then None
          else
            Some(Parsed(SignedRecord(format, name, value, sequence.value.value, issued.value.value * NANOSECONDS,
                                     valid.value.value * NANOSECONDS, ttl.value.value, []), ttl.value.rest))
  }

  predicate InRange(n: int) {
    -TWO_63 <= n < TWO_63
  }

  lemma NumbersRoundTrip(r: SignedRecord, rest: Bytes)
    requires Representable(r) && WholeSecond(r.issuedAt) && WholeSecond(r.validUntil)
    ensures ReadNumbers(r.format, r.name, r.value,
                        Uint64(r.sequence)
                        + (Int64(Unix(r.issuedAt)) + (Int64(Unix(r.validUntil)) + (Int64(r.ttl) + rest))))
            == Some(Parsed(r.(signature := []), rest))
  {
    hide Uint64, Int64, ReadUint64, ReadInt64;
    var tail3 := Int64(r.ttl) + rest;
    var tail2 := Int64(Unix(r.validUntil)) + tail3;
    var tail1 := Int64(Unix(r.issuedAt)) + tail2;
    Uint64RoundTrip(r.sequence, tail1);
    Int64RoundTrip(Unix(r.issuedAt), tail2);
    Int64RoundTrip(Unix(r.validUntil), tail3);
    Int64RoundTrip(r.ttl, rest);
  }

  /** The signed bytes determine every field of the record but its signature. */
  lemma PayloadRoundTrip(domain: Bytes, r: SignedRecord, rest: Bytes)
    requires Representable(r) && WholeSecond(r.issuedAt) && WholeSecond(r.validUntil)
    ensures ReadPayload(|domain|, PayloadBytes(domain, r) + rest) == Some(Parsed(r.(signature := []), rest))
  {
    hide Uint64, Int64, Field, ReadField, ReadNumbers, Unix;
    var numbers := Uint64(r.sequence) + (Int64(Unix(r.issuedAt)) + (Int64(Unix(r.validUntil)) + (Int64(r.ttl) + rest)));
    var tail2 := Field(r.value) + numbers;
    var tail1 := Field(r.name) + tail2;
    var all := PayloadBytes(domain, r) + rest;
    assert all[|domain|..] == Field(r.format) + tail1;
    FieldRoundTrip(r.format, tail1);
    FieldRoundTrip(r.name, tail2);
    FieldRoundTrip(r.value, numbers);
    NumbersRoundTrip(r, rest);
  }

  /** The envelope: domain, signed bytes, signature. */
  function EnvelopeBytes(outer: Bytes, inner: Bytes, r: SignedRecord): Bytes {
    outer + (PayloadBytes(inner, r) + Field(r.signature))
  }

  method MarshalBinary(nm: Naming, r: SignedRecord) returns (envelope: Option<Bytes>)
    ensures envelope.Some? <==> Encodable(nm, r) && r.signature != []
    ensures envelope.Some? ==> envelope.value == EnvelopeBytes(ENVELOPE_DOMAIN, SIGNATURE_DOMAIN, r)
  {
    var unsigned := UnsignedPayload(nm, r);
    if unsigned.None? || r.signature == [] { return None; }
    var bytes := ENVELOPE_DOMAIN + unsigned.value;
    bytes := bytes + Field(r.signature);
    assert bytes == ENVELOPE_DOMAIN + (unsigned.value + Field(r.signature));
    return Some(bytes);
  }

  /** Reads an envelope back, given the lengths of its two domains. */
  function ReadEnvelope(outerLength: nat, innerLength: nat, bytes: Bytes): Option<SignedRecord> {
    if |bytes| < outerLength then None
    else
      match ReadPayload(innerLength, bytes[outerLength..])
      case None => None
      case Some(p) =>
        match ReadField(p.rest)
        case None => None
        case Some(s) => if s.rest == [] then Some(p.value.(signature := s.value)) else None
  }

  /** The envelope determines the whole record. */
  lemma EnvelopeRoundTrip(outer: Bytes, inner: Bytes, r: SignedRecord)
    requires Representable(r) && WholeSecond(r.issuedAt) && WholeSecond(r.validUntil)
    ensures ReadEnvelope(|outer|, |inner|, EnvelopeBytes(outer, inner, r)) == Some(r)
  {
    hide Representable, WholeSecond, PayloadBytes, ReadPayload, Field, ReadField;
    var rest := PayloadBytes(inner, r) + Field(r.signature);
    assert EnvelopeBytes(outer, inner, r)[|outer|..] == rest;
    PayloadRoundTrip(inner, r, Field(r.signature));
    assert Field(r.signature) == Field(r.signature) + [];
    assert |r.signature| < TWO_64 by { SignatureFits(r); }
    FieldRoundTrip(r.signature, []);
  }

  lemma SignatureFits(r: SignedRecord)
    requires Representable(r)
    ensures |r.signature| < TWO_64
  {
  }

  /** Two records with the same signed bytes differ at most in their signatures; with the same envelope, not at all. */
  lemma EncodingsInjective(outer: Bytes, inner: Bytes, r1: SignedRecord, r2: SignedRecord)
    requires Representable(r1) && WholeSecond(r1.issuedAt) && WholeSecond(r1.validUntil)
    requires Representable(r2) && WholeSecond(r2.issuedAt) && WholeSecond(r2.validUntil)
    ensures PayloadBytes(inner, r1) == PayloadBytes(inner, r2) ==> r1.(signature := []) == r2.(signature := [])
    ensures EnvelopeBytes(outer, inner, r1) == EnvelopeBytes(outer, inner, r2) ==> r1 == r2
  {
    hide Representable, WholeSecond, PayloadBytes, ReadPayload, EnvelopeBytes, ReadEnvelope;
    PayloadRoundTrip(inner, r1, []);
    PayloadRoundTrip(inner, r2, []);
    assert PayloadBytes(inner, r1) + [] == PayloadBytes(inner, r1)
           && PayloadBytes(inner, r2) + [] == PayloadBytes(inner, r2);
    EnvelopeRoundTrip(outer, inner, r1);
    EnvelopeRoundTrip(outer, inner, r2);
  }
}
