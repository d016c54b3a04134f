/** The publisher's durable state, the checks on records, and what preparing, handing over and completing keep. */
module PublicationStates {
  import opened Common
  import opened Codec
  import opened PublicData
  import opened PublicSnapshots
  import opened IpnsRecord

  const STATE_VERSION: nat := 2

  /** What a clock may show: years 1 to 9999. */
  type Instant = t: Time | ZERO_TIME <= t < 253_402_300_800 * NANOSECONDS witness 0

  datatype RecordPolicy = RecordPolicy(validity: Duration, maxValidity: Duration, maxStaleness: Duration,
                                       clockSkew: Duration)

  predicate ValidPolicy(p: RecordPolicy) {
    && 0 < p.validity <= p.maxValidity && 0 < p.maxStaleness && 0 <= p.clockSkew
    && p.validity % NANOSECONDS == 0 && p.maxValidity % NANOSECONDS == 0
    && p.maxStaleness % NANOSECONDS == 0 && p.clockSkew % NANOSECONDS == 0
  }

  /** A public key: the name it derives, and the signatures it verifies. */
  datatype PublicKey = PublicKey(name: Bytes, verifies: (Bytes, Bytes) -> bool)

  /** The record is bound to this name and root, and signed by this key. */
  predicate Binds(nm: Naming, key: PublicKey, r: SignedRecord, root: Cid) {
    && r.name == key.name
    && RootCid(nm, r) == Some(root)
    && Encodable(nm, r)
    && r.signature != []
    && key.verifies(PayloadBytes(SIGNATURE_DOMAIN, r), r.signature)
  }

  datatype RecordFault =
    BadPolicy | NoTime | NotBound | TooLong | SequenceBehind | IssuedEarlier | FromFuture | Stale | Expired

  /** What a record is measured against; previousIssuedAt is the zero time when there is nothing before. */
  datatype Expectation = Expectation(root: Cid, previousSequence: nat, previousIssuedAt: Time, now: Instant)

  /** The first check a record fails, if any. */
  function RecordFaultOf(nm: Naming, key: PublicKey, policy: RecordPolicy, r: SignedRecord,
                         e: Expectation): Option<RecordFault> {
    if !ValidPolicy(policy) then Some(BadPolicy)
    else if e.now == ZERO_TIME then Some(NoTime)
    else if !Binds(nm, key, r, e.root) then Some(NotBound)
    else if Sub(r.validUntil, r.issuedAt) > policy.maxValidity then Some(TooLong)
    else if r.sequence <= e.previousSequence then Some(SequenceBehind)
    else if e.previousIssuedAt != ZERO_TIME && r.issuedAt < e.previousIssuedAt then Some(IssuedEarlier)
    else if r.issuedAt > e.now + policy.clockSkew then Some(FromFuture)
    else if e.now > r.issuedAt && Sub(e.now, r.issuedAt) > policy.maxStaleness then Some(Stale)
    else if !(r.validUntil > e.now) then Some(Expired)
    else None
  }

  predicate NeedsRefresh(policy: RecordPolicy, r: SignedRecord, now: Instant) {
    || !(r.validUntil > now)
    || (now > r.issuedAt && Sub(now, r.issuedAt) > policy.maxStaleness)
    || Sub(r.validUntil, r.issuedAt) > policy.maxValidity
  }

  predicate IsAge(fault: Option<RecordFault>) {
    fault == Some(Expired) || fault == Some(Stale) || fault == Some(TooLong)
  }

  /**
   * Refreshing is called for exactly when the record's age or length fails it: such a fault is always a reason to
   * refresh, and with nothing published before, a reason to refresh is always such a fault.
   */
  lemma RefreshIsExact(nm: Naming, key: PublicKey, policy: RecordPolicy, r: SignedRecord, e: Expectation)
    requires ValidPolicy(policy) && e.now != ZERO_TIME && Binds(nm, key, r, e.root)
    ensures IsAge(RecordFaultOf(nm, key, policy, r, e)) ==> NeedsRefresh(policy, r, e.now)
    ensures NeedsRefresh(policy, r, e.now) <==>
            IsAge(RecordFaultOf(nm, key, policy, r, e.(previousSequence := 0, previousIssuedAt := ZERO_TIME)))
  {
    BoundIsEncodable(nm, key, r, e.root);
    hide Binds;
  }

  lemma BoundIsEncodable(nm: Naming, key: PublicKey, r: SignedRecord, root: Cid)
    requires Binds(nm, key, r, root)
    ensures r.sequence != 0 && r.validUntil > r.issuedAt
  {
  }

  // Fresh records.

  /** A time cut to its second. */
  function Whole(now: Instant): Instant {
    if now - now % NANOSECONDS < ZERO_TIME then ZERO_TIME else now - now % NANOSECONDS
  }

  lemma WholeFacts(now: Instant)
    ensures Whole(now) <= now < Whole(now) + NANOSECONDS && Whole(now) % NANOSECONDS == 0
    ensures now >= ZERO_TIME + NANOSECONDS ==> Whole(now) > ZERO_TIME
  {
    assert ZERO_TIME % NANOSECONDS == 0;
    assert (now - now % NANOSECONDS) % NANOSECONDS == 0;
  }

  lemma WholeRises(early: Instant, late: Instant)
    requires early <= late
    ensures Whole(early) <= Whole(late)
  {
    WholeFacts(early);
    WholeFacts(late);
    NotAfterWhole(Whole(early), late);
  }

  lemma NotAfterWhole(t: Time, now: Instant)
    requires t % NANOSECONDS == 0 && t <= now
    ensures t <= Whole(now)
  {
    WholeFacts(now);
  }

  /** The record that is signed for a root, still without its signature. */
  function NewRecord(nm: Naming, key: PublicKey, policy: RecordPolicy, root: Cid, sequence: nat,
                     now: Instant): SignedRecord {
    SignedRecord(BOUNDARY_FORMAT, key.name, IPFS_PREFIX + nm.cidText(root), sequence,
                 Whole(now), Whole(now) + policy.validity, policy.validity, [])
  }

  lemma NewRecordRoot(nm: Naming, key: PublicKey, policy: RecordPolicy, root: Cid, sequence: nat, now: Instant)
    requires nm.Coherent() && root.version == 1
    ensures RootCid(nm, NewRecord(nm, key, policy, root, sequence, now)) == Some(root)
  {
    var value := IPFS_PREFIX + nm.cidText(root);
    assert value[|IPFS_PREFIX|..] == nm.cidText(root);
    assert IPFS_PREFIX <= value;
  }

  lemma NewRecordTimes(policy: RecordPolicy, now: Instant)
    requires ValidPolicy(policy) && now >= ZERO_TIME + NANOSECONDS
    ensures WholeSecond(Whole(now)) && WholeSecond(Whole(now) + policy.validity)
    ensures Sub(Whole(now) + policy.validity, Whole(now)) == policy.validity >= NANOSECONDS
    ensures policy.maxStaleness >= NANOSECONDS
  {
    WholeFacts(now);
    WholeSum(Whole(now), policy.validity);
    AtLeastOne(policy.validity);
    AtLeastOne(policy.maxStaleness);
  }

  lemma WholeSum(a: int, b: int)
    requires a % NANOSECONDS == 0 && b % NANOSECONDS == 0
    ensures (a + b) % NANOSECONDS == 0
  {
  }

  lemma AtLeastOne(d: int)
    requires d > 0 && d % NANOSECONDS == 0
    ensures d >= NANOSECONDS
  {
  }

  /** A new record has canonical bytes. */
  lemma NewRecordEncodable(nm: Naming, key: PublicKey, policy: RecordPolicy, root: Cid, sequence: nat, now: Instant)
    requires nm.Coherent() && nm.canonicalName(key.name) && root.version == 1 && sequence != 0
    requires ValidPolicy(policy) && now >= ZERO_TIME + NANOSECONDS
    ensures Encodable(nm, NewRecord(nm, key, policy, root, sequence, now))
  {
    NewRecordRoot(nm, key, policy, root, sequence, now);
    NewRecordTimes(policy, now);
    hide RootCid, WholeSecond, Whole;
  }

  /** A well signed new record passes every check from the second it was made in until it is stale or expires. */
  lemma NewRecordPasses(nm: Naming, key: PublicKey, policy: RecordPolicy, root: Cid, sequence: nat, now: Instant,
                        signature: Bytes, e: Expectation)
    requires nm.Coherent() && nm.canonicalName(key.name) && root.version == 1
    requires ValidPolicy(policy) && now >= ZERO_TIME + NANOSECONDS
    requires signature != []
    requires key.verifies(PayloadBytes(SIGNATURE_DOMAIN, NewRecord(nm, key, policy, root, sequence, now)), signature)
    requires e.root == root && e.previousSequence < sequence && Whole(now) <= e.now
    requires e.now - Whole(now) <= policy.maxStaleness && e.now < Whole(now) + policy.validity
    requires e.previousIssuedAt == ZERO_TIME || e.previousIssuedAt <= Whole(now)
    ensures RecordFaultOf(nm, key, policy, NewRecord(nm, key, policy, root, sequence, now).(signature := signature),
                          e).None?
  {
    var plain := NewRecord(nm, key, policy, root, sequence, now);
    var r := plain.(signature := signature);
    NewRecordEncodable(nm, key, policy, root, sequence, now);
    NewRecordRoot(nm, key, policy, root, sequence, now);
    NewRecordTimes(policy, now);
    WholeFacts(now);
    SignatureIsApart(nm, plain, signature);
    assert Binds(nm, key, r, root);
    hide Binds, Encodable, RootCid, PayloadBytes, Whole;
  }

  /** Neither the canonical bytes nor the checks before them depend on the signature. */
  lemma SignatureIsApart(nm: Naming, r: SignedRecord, signature: Bytes)
    ensures PayloadBytes(SIGNATURE_DOMAIN, r.(signature := signature)) == PayloadBytes(SIGNATURE_DOMAIN, r)
    ensures Encodable(nm, r.(signature := signature)) <==> Encodable(nm, r)
    ensures RootCid(nm, r.(signature := signature)) == RootCid(nm, r)
  {
  }

  // The durable state.

  datatype Pending = Pending(publicationID: Digest, digest: Digest, trustRevision: nat, rootText: Bytes,
                             record: SignedRecord)

  datatype State = State(
    version: nat,
    revision: nat,
    ipnsName: Bytes,
    highSequence: nat,
    lastSequence: nat,
    lastPublicationID: Option<Digest>,
    lastDigest: Option<Digest>,
    lastTrustRevision: nat,
    lastRootText: Bytes,
    lastRecord: Option<SignedRecord>,
    pending: Option<Pending>)

  const EMPTY_STATE := State(STATE_VERSION, 0, [], 0, 0, None, None, 0, [], None, None)

  /** A record names this identity and this root, and has canonical bytes and a signature. */
  predicate RecordFits(nm: Naming, name: Bytes, rootText: Bytes, r: SignedRecord) {
    && nm.CanonicalRoot(rootText).Some?
    && RootCid(nm, r) == nm.CanonicalRoot(rootText)
    && r.name == name
    && Encodable(nm, r)
    && r.signature != []
  }

  predicate ValidCompleted(nm: Naming, s: State) {
    if s.lastSequence == 0 then
      && s.lastPublicationID.None? && s.lastDigest.None? && s.lastTrustRevision == 0
      && s.lastRootText == [] && s.lastRecord.None?
    else
      && s.ipnsName != [] && s.lastPublicationID.Some? && s.lastDigest == s.lastPublicationID
      && s.lastTrustRevision != 0
      && s.lastRecord.Some? && s.lastRecord.value.sequence == s.lastSequence
      && RecordFits(nm, s.ipnsName, s.lastRootText, s.lastRecord.value)
  }

  predicate ValidPending(nm: Naming, s: State) {
    match s.pending
    case None => s.highSequence == s.lastSequence
    case Some(p) =>
      && s.ipnsName != [] && p.digest == p.publicationID
      && p.trustRevision != 0 && p.trustRevision > s.lastTrustRevision
      && p.record.sequence == s.highSequence && p.record.sequence > s.lastSequence
      && RecordFits(nm, s.ipnsName, p.rootText, p.record)
  }

  predicate ValidState(nm: Naming, s: State) {
    && s.version == STATE_VERSION
    && s.lastSequence <= s.highSequence
    && (s.revision == 0 ==>
          s.ipnsName == [] && s.highSequence == 0 && s.lastSequence == 0 && s.lastTrustRevision == 0 && s.pending.None?)
    && (s.ipnsName != [] ==> nm.canonicalName(s.ipnsName))
    && ValidCompleted(nm, s)
    && ValidPending(nm, s)
  }

  /** The identity check on a loaded state: its name is ours, and its records verify. */
  predicate OursToContinue(nm: Naming, key: PublicKey, s: State) {
    && ValidState(nm, s)
    && (s.ipnsName == [] || s.ipnsName == key.name)
    && (s.lastRecord.Some? ==>
          nm.CanonicalRoot(s.lastRootText).Some?
          && Binds(nm, key, s.lastRecord.value, nm.CanonicalRoot(s.lastRootText).value))
    && (s.pending.Some? ==>
          nm.CanonicalRoot(s.pending.value.rootText).Some?
          && Binds(nm, key, s.pending.value.record, nm.CanonicalRoot(s.pending.value.rootText).value))
  }

  predicate PendingMatches(p: Pending, snapshot: PublicSnapshot) {
    p.trustRevision == snapshot.stateRevision && p.publicationID == snapshot.publicationID
    && p.digest == snapshot.digest
  }

  predicate CompletedMatches(s: State, snapshot: PublicSnapshot) {
    && s.pending.None? && s.lastSequence != 0
    && s.lastTrustRevision == snapshot.stateRevision
    && s.lastPublicationID == Some(snapshot.publicationID) && s.lastDigest == Some(snapshot.digest)
  }

  /** Neither older than what is completed or pending, nor different content at the same trust revision. */
  predicate RevisionAdmits(s: State, snapshot: PublicSnapshot) {
    var revision := snapshot.stateRevision;
    && revision >= s.lastTrustRevision
    && (revision == s.lastTrustRevision && s.lastTrustRevision != 0 ==>
          s.lastPublicationID == Some(snapshot.publicationID) && s.lastDigest == Some(snapshot.digest))
    && (s.pending.Some? ==>
          && revision >= s.pending.value.trustRevision
          && (revision == s.pending.value.trustRevision ==>
                s.pending.value.publicationID == snapshot.publicationID && s.pending.value.digest == snapshot.digest))
  }

  // The two transitions.

  function Prepared(nm: Naming, s: State, name: Bytes, snapshot: PublicSnapshot, root: Cid, r: SignedRecord): State {
    s.(revision := s.revision + 1, ipnsName := name, highSequence := s.highSequence + 1,
       pending := Some(Pending(snapshot.publicationID, snapshot.digest, snapshot.stateRevision, nm.cidText(root), r)))
  }

  function Completed(s: State): State
    requires s.pending.Some?
  {
    var p := s.pending.value;
    s.(revision := s.revision + 1,
       lastSequence := p.record.sequence,
       lastPublicationID := Some(p.publicationID),
       lastDigest := Some(p.digest),
       lastTrustRevision := p.trustRevision,
       lastRootText := p.rootText,
       lastRecord := Some(p.record),
       pending := None)
  }

  lemma RootTextIsCanonical(nm: Naming, root: Cid)
    requires nm.Coherent() && root.version == 1
    ensures nm.CanonicalRoot(nm.cidText(root)) == Some(root)
  {
  }

  /** The checks made beforehand leave nothing for the state validation to refuse: the prepared state is valid. */
  lemma PreparedIsValid(nm: Naming, key: PublicKey, s: State, snapshot: PublicSnapshot, root: Cid, r: SignedRecord)
    requires nm.Coherent() && nm.canonicalName(key.name) && key.name != []
    requires ValidState(nm, s) && (s.ipnsName == [] || s.ipnsName == key.name)
    requires snapshot.digest == snapshot.publicationID && snapshot.stateRevision != 0
    requires RevisionAdmits(s, snapshot) && !CompletedMatches(s, snapshot)
    requires s.pending.Some? ==> PendingMatches(s.pending.value, snapshot)
    requires root.version == 1 && Binds(nm, key, r, root) && r.sequence == s.highSequence + 1
    ensures ValidState(nm, Prepared(nm, s, key.name, snapshot, root, r))
  {
    RootTextIsCanonical(nm, root);
    var next := Prepared(nm, s, key.name, snapshot, root, r);
    assert RecordFits(nm, key.name, next.pending.value.rootText, r);
    hide RecordFits, Binds, RootCid, Encodable;
    assert ValidCompleted(nm, next);
    assert next.pending.value.trustRevision > s.lastTrustRevision;
  }

  /** Completing a valid state that has something pending gives a valid state. */
  lemma CompletedIsValid(nm: Naming, s: State)
    requires ValidState(nm, s) && s.pending.Some?
    ensures ValidState(nm, Completed(s))
  {
    hide RecordFits;
  }

  /** Completion always moves the completed fields. */
  lemma CompletionMovesLast(nm: Naming, s: State)
    requires ValidState(nm, s) && s.pending.Some?
    ensures Completed(s).lastSequence > s.lastSequence && Completed(s).lastTrustRevision > s.lastTrustRevision
  {
  }

  /** Two states agree on what was last completed. */
  predicate SameLast(a: State, b: State) {
    && a.lastSequence == b.lastSequence && a.lastPublicationID == b.lastPublicationID && a.lastDigest == b.lastDigest
    && a.lastTrustRevision == b.lastTrustRevision && a.lastRootText == b.lastRootText && a.lastRecord == b.lastRecord
  }

  // What the network has been given.

  datatype Handover = Handover(record: SignedRecord, publicationID: Digest, trustRevision: nat)

  /** The record with the highest durable sequence. */
  function Head(s: State): Option<Handover> {
    if s.pending.Some? then
      Some(Handover(s.pending.value.record, s.pending.value.publicationID, s.pending.value.trustRevision))
    else if s.lastRecord.Some? && s.lastPublicationID.Some? then
      Some(Handover(s.lastRecord.value, s.lastPublicationID.value, s.lastTrustRevision))
    else None
  }

  /** What the network has been given when this record leaves the process in this durable state. */
  function Handing(r: SignedRecord, s: State): Handover {
    if s.pending.Some? then Handover(r, s.pending.value.publicationID, s.pending.value.trustRevision)
    else Handover(r, Sha256([]), 0)
  }

  /** The first never comes after the second, and with the same sequence they are the same. */
  predicate NotAfter(a: Handover, b: Handover) {
    && a.record.sequence <= b.record.sequence
    && a.trustRevision <= b.trustRevision
    && (a.record.sequence == b.record.sequence ==> a == b)
  }

  predicate Ordered(handed: seq<Handover>) {
    forall i :: 0 <= i < |handed| - 1 ==> NotAfter(handed[i], handed[i + 1])
  }

  predicate Covered(s: State, handed: seq<Handover>) {
    handed != [] ==> Head(s).Some? && NotAfter(handed[|handed| - 1], Head(s).value)
  }

  lemma {:induction false} OrderedThroughout(handed: seq<Handover>, i: nat, j: nat)
    requires Ordered(handed) && i < j < |handed|
    ensures NotAfter(handed[i], handed[j])
    decreases j - i
  {
    if j > i + 1 { OrderedThroughout(handed, i, j - 1); }
    assert NotAfter(handed[j - 1], handed[(j - 1) + 1]);
  }

  lemma PrepareKeepsCover(nm: Naming, s: State, name: Bytes, snapshot: PublicSnapshot, root: Cid, r: SignedRecord,
                          handed: seq<Handover>)
    requires ValidState(nm, s) && RevisionAdmits(s, snapshot) && r.sequence == s.highSequence + 1 && Covered(s, handed)
    ensures Covered(Prepared(nm, s, name, snapshot, root, r), handed)
  {
    hide RecordFits;
  }

  lemma HandingOverKeepsOrder(nm: Naming, s: State, handed: seq<Handover>)
    requires ValidState(nm, s) && s.pending.Some? && Ordered(handed) && Covered(s, handed)
    ensures Ordered(handed + [Head(s).value]) && Covered(s, handed + [Head(s).value])
  {
    hide ValidState, NotAfter;
    var more := handed + [Head(s).value];
    forall i | 0 <= i < |more| - 1
      ensures NotAfter(more[i], more[i + 1])
    {
      if i < |handed| - 1 { assert NotAfter(handed[i], handed[i + 1]); }
    }
    assert NotAfter(Head(s).value, Head(s).value) by { NotAfterItself(Head(s).value); }
  }

  lemma NotAfterItself(h: Handover)
    ensures NotAfter(h, h)
  {
  }

  lemma CompleteKeepsCover(s: State, handed: seq<Handover>)
    requires s.pending.Some? && Covered(s, handed)
    ensures Head(Completed(s)) == Head(s) && Covered(Completed(s), handed)
  {
  }
}
