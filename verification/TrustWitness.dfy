/** Valid snapshots on which a trust operation passes all its own checks and still builds what the store must refuse. */
module TrustWitness {
  import opened Common
  import opened Codec
  import opened PublicData
  import opened TrustTypes
  import opened TrustOps
  import opened TrustSerials
  import opened TrustValidity

  const ENV := Env(Rules(d => true, d => true), name => true, text => true, bytes => true, (view, call) => DOCS)
  const CONFIG := Config([0], 100, 100)
  const DOCUMENT := Document([1], [], [])
  const DOCS: Option<seq<Document>> := Some([DOCUMENT])

  /** A sound snapshot, an operation that is granted, checked and has room, and a next snapshot that is not valid. */
  ghost predicate MustRefuse(s: Snapshot, q: Request) {
    && ValidSnapshot(ENV, s) && s.revision > 0 && s.identity == Some(CONFIG.identity) && RelationshipsGranted(s)
    && Candidate(ENV, CONFIG, s, q).Some? && Checked(ENV, CONFIG, s, q) && Room(s, q)
    && !ValidSnapshot(ENV, Candidate(ENV, CONFIG, s, q).value)
  }

  lemma ExceptionDecides(s: Snapshot, q: Request)
    requires ValidSnapshot(ENV, s) && s.revision > 0 && s.identity == Some(CONFIG.identity) && RelationshipsGranted(s)
    requires Candidate(ENV, CONFIG, s, q).Some? && Checked(ENV, CONFIG, s, q) && Room(s, q) && !Unexceptional(s, q)
    ensures MustRefuse(s, q)
  {
    hide ValidSnapshot, Candidate, Checked, Room, Unexceptional, RelationshipsGranted;
    ValidityPreservation(ENV, CONFIG, s, q);
  }

  lemma Attaches(s: Snapshot, now: nat)
    requires s.revision > 0 && s.published == map[] && now > 0
    ensures Attach(ENV, CONFIG, s, 0, now).Some?
  {
    assert TotalBytes(DOCS.value) == 0;
    assert Publishable(ENV.rules, s.revision, DOCS.value, now);
  }

  function GrantAt(revision: nat, now: nat): Grant {
    Grant([3], true, revision, now + 1, None, None, None, None, None, 0, 0, 0)
  }

  // Relationships.

  const OWNER := RelationshipID([1], [0], [1])
  const BACKUP := RelationshipID([2], [0], [2])

  function Person(id: RelationshipID, role: Role, generation: nat, since: nat): Relationship {
    Relationship(id, id.target, id.principal, [], role, Authorized, generation, since, since)
  }

  function Related(relationships: map<RelationshipID, Relationship>): Snapshot {
    EMPTY.(revision := 1, identity := Some([0]), relationships := relationships,
           grants := map[[1] := AppliedGrant([1], AdoptOp, 1), [2] := AppliedGrant([2], AdoptOp, 1)])
  }

  lemma RelatedIsValid(relationships: map<RelationshipID, Relationship>)
    requires |relationships| <= MAX_RELATIONSHIPS && relationships.Keys <= {OWNER, BACKUP}
    requires ValidRelationships(ENV, Related(relationships))
    ensures ValidSnapshot(ENV, Related(relationships)) && RelationshipsGranted(Related(relationships))
  {
    hide SigningCA, SignedBy, DisjointSerials, WithinBounds, ValidCA, ValidBundles, ValidPublished, ValidLeaves;
    hide ValidRelationships, ValidPendings, ValidGrants, RelationshipsGranted, ValidBurned, ValidRevocations;
    hide ValidFederations, ValidOutbox;
    var s := Related(relationships);
    RelatedParts(relationships);
    RelatedGrants(relationships);
    NothingIssued(s);
    NothingPublished(s);
  }

  lemma RelatedParts(relationships: map<RelationshipID, Relationship>)
    requires |relationships| <= MAX_RELATIONSHIPS
    ensures var s := Related(relationships); DisjointSerials(s) && WithinBounds(s) && ValidCA(s)
  {
  }

  lemma NothingPublished(s: Snapshot)
    requires s.published == map[] && s.lastSequence == 0 && s.lastRoot == []
    ensures ValidPublished(ENV, s)
  {
  }

  function Leave(now: nat): Request {
    RevokeTrust(Peer([1], []), OWNER, GrantAt(1, now), 0, now)
  }

  lemma OwnerMayAsk(relationships: map<RelationshipID, Relationship>, now: nat)
    requires AuthorizedOwnerAt(Related(relationships), OWNER) && now > 0
    requires relationships[OWNER].principal == [1] && relationships[OWNER].principalCertificate == []
    ensures Candidate(ENV, CONFIG, Related(relationships), Leave(now)).Some?
    ensures Checked(ENV, CONFIG, Related(relationships), Leave(now)) && Room(Related(relationships), Leave(now))
  {
    var s := Related(relationships);
    assert [3 as Byte][0] != [1 as Byte][0] && [3 as Byte][0] != [2 as Byte][0];
    assert Granted(CONFIG, s, GrantAt(1, now), now);
    assert AuthorizedAsOwner(s, Peer([1], []));
    Attaches(WithGrant(RelationshipRevoked(Next(s), OWNER, now), GrantAt(1, now), RevokeTrustOp, now), now);
    assert s.revocations.Keys + BoundCertificates(s, OWNER) == {};
  }

  lemma SoleOwnerIsValid(generation: nat, since: nat)
    requires generation > 0 && since > 0
    ensures ValidRelationships(ENV, Related(map[OWNER := Person(OWNER, Owner, generation, since)]))
  {
  }

  const PAIR := map[OWNER := Person(OWNER, Owner, 1, 1), BACKUP := Person(BACKUP, BackupAdmin, 1, 1)]

  lemma PairIsValid()
    ensures OWNER in PAIR && PAIR[OWNER] == Person(OWNER, Owner, 1, 1)
    ensures AuthorizedOwnerAt(Related(PAIR), OWNER) && LiveBackupAt(Related(PAIR), BACKUP)
    ensures ValidRelationships(ENV, Related(PAIR))
  {
    assert [1 as Byte][0] != [2 as Byte][0];
    assert OWNER != BACKUP;
    assert AuthorizedOwnerAt(Related(PAIR), OWNER);
  }

  /** An owner cannot leave while a backup administrator is live. */
  lemma OwnerWithBackupCannotLeave()
    ensures MustRefuse(Related(PAIR), Leave(1))
  {
    hide ValidSnapshot, MustRefuse, Candidate, ValidRelationships, AuthorizedOwnerAt, LiveBackupAt;
    hide RelationshipsGranted;
    PairIsValid();
    RelatedIsValid(PAIR);
    OwnerMayAsk(PAIR, 1);
    assert Depended(Related(PAIR), OWNER);
    ExceptionDecides(Related(PAIR), Leave(1));
  }

  /** A relationship whose generation is at the end of its range cannot be revoked. */
  lemma LastGenerationCannotBeRevoked()
    ensures MustRefuse(Related(map[OWNER := Person(OWNER, Owner, MAX_UINT64, 1)]), Leave(1))
  {
    var people := map[OWNER := Person(OWNER, Owner, MAX_UINT64, 1)];
    SoleOwnerIsValid(MAX_UINT64, 1);
    hide ValidSnapshot, MustRefuse, Candidate, ValidRelationships;
    RelatedIsValid(people);
    OwnerMayAsk(people, 1);
    ExceptionDecides(Related(people), Leave(1));
  }

  /** Nor can one whose beginning is ahead of the clock. */
  lemma ClockBackCannotRevoke()
    ensures MustRefuse(Related(map[OWNER := Person(OWNER, Owner, 1, 5)]), Leave(3))
  {
    var people := map[OWNER := Person(OWNER, Owner, 1, 5)];
    SoleOwnerIsValid(1, 5);
    hide ValidSnapshot, MustRefuse, Candidate, ValidRelationships;
    RelatedIsValid(people);
    OwnerMayAsk(people, 3);
    ExceptionDecides(Related(people), Leave(3));
  }

  // Certificates.

  function CA(subject: Name, serial: nat, key: Bytes, signer: Bytes, certSign: bool, size: nat): Certificate {
    Certificate(serial, subject, key, signer, 1, 9, true, certSign, false, None, size)
  }

  function Intent(op: Operation, remote: Option<Name>, serial: nat, key: Bytes): Pending {
    Pending([3], [3], op, remote, [0], serial, key, 1, 9, 1)
  }

  function Reserving(p: Pending, ca: Option<Certificate>): Snapshot {
    EMPTY.(revision := 1, identity := Some([0]), nextSerial := p.serial + 1, activeCA := ca,
           bundles := if ca.Some? then map[[0] := Bundle([0], 1, [ca.value], 1)] else map[],
           pending := map[[3] := p], grants := map[[3] := AppliedGrant([3], p.operation, 1)])
  }

  lemma ReservingIsDisjoint(p: Pending, ca: Option<Certificate>)
    requires ca.Some? ==> ca.value.serial < p.serial
    ensures DisjointSerials(Reserving(p, ca))
  {
    var s := Reserving(p, ca);
    forall h, n: nat | Holds(s, h, n)
      ensures (h == Reserved([3]) && n == p.serial) || (h == TheCA && ca.Some? && n == ca.value.serial)
    {
    }
  }

  /** The rules about what a store does not hold are met. */
  lemma NothingIssued(s: Snapshot)
    requires s.identity.Some? && s.certificates == map[] && s.burned == map[] && s.revocations == map[]
    requires s.federations == map[] && s.outbox == map[]
    ensures ValidLeaves(s) && ValidBurned(s) && ValidRevocations(ENV, s) && ValidFederations(ENV, s)
    ensures ValidOutbox(ENV, s)
  {
  }

  lemma ReservingGrants(p: Pending, ca: Option<Certificate>)
    requires p.id == [3] && IssuesCertificate(p.operation) && p.serial > 0 && p.createdAt != 0
             && p.notAfter >= p.notBefore
    ensures var s := Reserving(p, ca);
            && ValidRelationships(ENV, s) && ValidPendings(ENV, s) && ValidGrants(s) && RelationshipsGranted(s)
  {
  }

  lemma RelatedGrants(relationships: map<RelationshipID, Relationship>)
    requires relationships.Keys <= {OWNER, BACKUP} && ValidRelationships(ENV, Related(relationships))
    ensures var s := Related(relationships);
            && ValidPendings(ENV, s) && ValidGrants(s) && ValidBundles(ENV, s) && RelationshipsGranted(s)
  {
  }

  lemma ReservingIsValid(p: Pending, ca: Option<Certificate>)
    requires p.id == [3] && IssuesCertificate(p.operation) && p.serial > 0 && p.createdAt != 0
             && p.notAfter >= p.notBefore
    requires ca.Some? ==>
               SigningCA(ca.value) && ca.value.subject == [0] && SignedBy(ca.value, ca.value)
               && 0 < ca.value.serial < p.serial
    ensures ValidSnapshot(ENV, Reserving(p, ca)) && RelationshipsGranted(Reserving(p, ca))
  {
    hide SigningCA, SignedBy, DisjointSerials, WithinBounds, ValidCA, ValidBundles, ValidPublished, ValidLeaves;
    hide ValidRelationships, ValidPendings, ValidGrants, RelationshipsGranted, ValidBurned, ValidRevocations;
    hide ValidFederations, ValidOutbox;
    var s := Reserving(p, ca);
    ReservingIsDisjoint(p, ca);
    ReservingParts(p, ca);
    ReservingGrants(p, ca);
    NothingIssued(s);
    NothingPublished(s);
  }

  lemma ReservingParts(p: Pending, ca: Option<Certificate>)
    requires ca.Some? ==>
              SigningCA(ca.value) && ca.value.subject == [0] && SignedBy(ca.value, ca.value) && ca.value.serial > 0
    ensures var s := Reserving(p, ca); WithinBounds(s) && ValidCA(s) && ValidBundles(ENV, s)
  {
    hide SigningCA, SignedBy;
  }

  lemma AuthorityMayComplete(s: Snapshot, c: Certificate)
    requires s.revision > 0 && s.published == map[] && [3] in s.pending && s.activeCA.None?
    ensures Candidate(ENV, CONFIG, s, FinalizeCA([3], c, 0, 1)).Some?
  {
    hide Attach;
    Attaches(CAInstalled(Unreserved(Next(s), {[3]}), CONFIG.identity, c, 1), 1);
  }

  /** A certificate authority of more than 64 KiB is issued and checked, but cannot be stored. */
  lemma LargeCertificateCannotBeStored()
    ensures MustRefuse(Reserving(Intent(InitializeCAOp, None, 1, [7]), None),
                       FinalizeCA([3], CA([0], 1, [7], [7], true, MAX_DER + 1), 0, 1))
  {
    hide ValidSnapshot, MustRefuse, RelationshipsGranted, Candidate;
    var p := Intent(InitializeCAOp, None, 1, [7]);
    var c := CA([0], 1, [7], [7], true, MAX_DER + 1);
    var s := Reserving(p, None);
    ReservingIsValid(p, None);
    AuthorityMayComplete(s, c);
    ExceptionDecides(s, FinalizeCA([3], c, 0, 1));
  }

  const REMOTE := CA([5], 1, [8], [8], true, 1)
  const EDGE := Edge([5], Hub, Spoke, Material(REMOTE, 1), 1)

  lemma CrossMayComplete(s: Snapshot, c: Certificate)
    requires s.revision > 0 && s.published == map[] && [3] in s.pending && s.federations == map[]
    ensures Candidate(ENV, CONFIG, s, FinalizeCross([3], c, EDGE, 0, 1)).Some?
  {
    hide Attach, CrossInstalled;
    var base := Unreserved(Next(s), {[3]});
    var t := CrossInstalled(base, CONFIG.identity, c, s.pending[[3]].serial, EDGE, 1);
    CrossInstalledFacts(base, CONFIG.identity, c, s.pending[[3]].serial, EDGE, 1);
    hide Federates;
    Attaches(t, 1);
  }

  lemma EdgeIsSound()
    ensures SoundEdge(ENV, CONFIG, EDGE)
  {
    assert [5 as Byte][0] != [0 as Byte][0];
  }

  /** A cross-certificate that may not sign certificates passes the checks at issue, but cannot be stored. */
  lemma CrossWithoutCertSignCannotBeStored()
    ensures MustRefuse(Reserving(Intent(FederateOp, Some([5]), 2, [8]), Some(CA([0], 1, [7], [7], true, 1))),
                       FinalizeCross([3], CA([5], 2, [8], [7], false, 1), EDGE, 0, 1))
  {
    hide ValidSnapshot, MustRefuse, RelationshipsGranted, Candidate, SoundEdge;
    var p := Intent(FederateOp, Some([5]), 2, [8]);
    var root := CA([0], 1, [7], [7], true, 1);
    var c := CA([5], 2, [8], [7], false, 1);
    var s := Reserving(p, Some(root));
    ReservingIsValid(p, Some(root));
    CrossMayComplete(s, c);
    EdgeIsSound();
    ExceptionDecides(s, FinalizeCross([3], c, EDGE, 0, 1));
  }

  // Draining.

  function Waiting(p: Publication): Snapshot {
    EMPTY.(revision := 1, identity := Some([0]), outbox := map[p.id := p])
  }

  const ITEM := NewPublication(ENV.rules, [0], 1, DOCS.value, 1)

  lemma ItemIsBuilt()
    ensures ITEM.Some? && ITEM.value.stateRevision == 1 && ValidPublication(ENV.rules, [0], ITEM.value)
  {
    assert TotalBytes(DOCS.value) == 0;
    assert Publishable(ENV.rules, 1, DOCS.value, 1);
    NewPublicationValidates(ENV.rules, [0], 1, DOCS.value, 1);
    hide ValidPublication, Arrange;
  }

  /** All collections but the outbox are empty. */
  lemma WaitingParts(p: Publication)
    ensures var s := Waiting(p);
            && DisjointSerials(s) && WithinBounds(s) && ValidCA(s) && ValidRelationships(ENV, s)
            && RelationshipsGranted(s)
  {
  }

  lemma WaitingIsValid(p: Publication)
    requires p.stateRevision == 1 && ValidPublication(ENV.rules, [0], p)
    ensures ValidSnapshot(ENV, Waiting(p)) && RelationshipsGranted(Waiting(p))
  {
    hide ValidPublication, DisjointSerials, WithinBounds, ValidCA, ValidRelationships, ValidPublished;
    hide RelationshipsGranted;
    WaitingParts(p);
    NothingPublished(Waiting(p));
  }

  /** A drain whose clock reads zero passes its checks, and its record of completion cannot be stored. */
  lemma ZeroClockCannotDrain()
    ensures ITEM.Some?
    ensures var p := ITEM.value;
            MustRefuse(Waiting(p), Drain(p.id, Receipt(p.id, p.digest, p.ipnsName, [9], 1), None, 0))
  {
    hide ValidSnapshot, MustRefuse, RelationshipsGranted, NewPublication;
    ItemIsBuilt();
    var p := ITEM.value;
    WaitingIsValid(p);
    var s := Waiting(p);
    var q := Drain(p.id, Receipt(p.id, p.digest, p.ipnsName, [9], 1), None, 0);
    assert IsOldestItem(s, p.id);
    assert Candidate(ENV, CONFIG, s, q).Some?;
    hide Candidate;
    ExceptionDecides(s, q);
  }
}
