/** The durable trust document and what makes it valid. */
module TrustTypes {
  import opened Common
  import opened Codec
  import opened PublicData

  const STATE_VERSION: nat := 1
  const MAX_RELATIONSHIPS: nat := 1024
  const MAX_CERTIFICATES: nat := 4096
  const MAX_PENDING: nat := 64
  const MAX_REVOCATIONS: nat := 4096
  const MAX_FEDERATIONS: nat := 128
  const MAX_BUNDLES: nat := 128
  const MAX_GRANTS: nat := 4096
  const MAX_OUTBOX: nat := 256
  const MAX_PUBLISHED: nat := 4096
  const MAX_DER: nat := 65536
  const MAX_BUNDLE_CERTIFICATES: nat := 16

  /** A device is written by its canonical name, which fixes its peer, trust domain and workload identity. */
  type Name = Bytes

  type GrantID = Bytes

  /** A parsed certificate. It stands for its encoding and for its identifier, the hash of the encoding. */
  datatype Certificate = Certificate(
    serial: nat,
    subject: Name,
    publicKey: Bytes,
    signer: Bytes,
    notBefore: nat,
    notAfter: nat,
    isCA: bool,
    certSign: bool,
    leafProfile: bool,
    uri: Option<Name>,
    size: nat)

  datatype Role = Owner | BackupAdmin
  datatype Phase = Provisional | Authorized | Revoked
  datatype FederationRole = Hub | Spoke
  datatype Operation = AdoptOp | RevokeTrustOp | InitializeCAOp | IssueOp | RevokeCertificateOp | FederateOp

  /** The hash that names a relationship, with what it hashes. */
  datatype RelationshipID = RelationshipID(grant: GrantID, target: Name, principal: Name)

  datatype Relationship = Relationship(
    id: RelationshipID,
    target: Name,
    principal: Name,
    principalCertificate: Bytes,
    role: Role,
    phase: Phase,
    generation: nat,
    establishedAt: nat,
    updatedAt: nat)

  datatype Leaf = Leaf(
    certificate: Certificate,
    relationship: Option<RelationshipID>,
    name: Name,
    serial: nat,
    publicKey: Bytes,
    notBefore: nat,
    notAfter: nat,
    revoked: bool,
    issuedAt: nat,
    revokedAt: nat)

  datatype Pending = Pending(
    id: GrantID,
    grant: GrantID,
    operation: Operation,
    remote: Option<Name>,
    name: Name,
    serial: nat,
    publicKey: Bytes,
    notBefore: nat,
    notAfter: nat,
    createdAt: nat)

  datatype RevocationKind = LeafKind | CrossKind

  datatype Revocation = Revocation(certificate: Certificate, serial: nat, kind: RevocationKind, revokedAt: nat)

  datatype Federation = Federation(
    source: Name,
    target: Name,
    localRole: FederationRole,
    remoteRole: FederationRole,
    sourceGeneration: nat,
    remoteCA: Certificate,
    cross: Certificate,
    crossSerial: nat,
    establishedAt: nat,
    updatedAt: nat)

  datatype Bundle = Bundle(domain: Name, generation: nat, certificates: seq<Certificate>, updatedAt: nat)

  datatype AppliedGrant = AppliedGrant(grant: GrantID, operation: Operation, appliedAt: nat)

  datatype Published = Published(digest: Digest, root: Bytes, sequence: nat, completedAt: nat)

  datatype Snapshot = Snapshot(
    version: nat,
    revision: nat,
    identity: Option<Name>,
    nextSerial: nat,
    activeCA: Option<Certificate>,
    relationships: map<RelationshipID, Relationship>,
    certificates: map<Certificate, Leaf>,
    pending: map<GrantID, Pending>,
    burned: map<nat, nat>,
    revocations: map<Certificate, Revocation>,
    federations: map<Name, Federation>,
    bundles: map<Name, Bundle>,
    grants: map<GrantID, AppliedGrant>,
    outbox: map<Digest, Publication>,
    published: map<Digest, Published>,
    lastSequence: nat,
    lastRoot: Bytes)

  const EMPTY: Snapshot :=
    Snapshot(STATE_VERSION, 0, None, 1, None, map[], map[], map[], map[], map[], map[], map[], map[], map[], map[], 0,
             [])

  // The public view.

  datatype PublicCertificate = PublicCertificate(certificate: Certificate, name: Name, serial: nat,
                                                 notBefore: nat, notAfter: nat, revoked: bool)

  /** The identifier of a public status: a certificate's, or the hash made for a serial whose outcome is uncertain. */
  datatype StatusID = OfCertificate(certificate: Certificate) | OfSerial(domain: Option<Name>, serial: nat)

  datatype PublicRevocation = PublicRevocation(status: StatusID, certificate: Option<Certificate>, serial: nat,
                                               kind: Option<RevocationKind>, revokedAt: nat)

  datatype PublicFederation = PublicFederation(
    source: Name, target: Name, sourceGeneration: nat, remoteCA: Certificate, cross: Certificate, establishedAt: nat)

  /** What is published. The lists are sorted by identifier, so that the sets of their members determine them. */
  datatype PublicView = PublicView(
    revision: nat,
    identity: Option<Name>,
    activeCA: Option<Certificate>,
    certificates: set<PublicCertificate>,
    revocations: set<PublicRevocation>,
    federations: set<PublicFederation>)

  /** What the surrounding libraries decide: the document rules, which names are canonical, which texts are content
      identifiers, which bytes are a public key, and which documents are built of a public view. The builder may answer
      differently, or not at all, from call to call. */
  datatype Env = Env(rules: Rules, canonical: Name -> bool, contentID: Bytes -> bool, publicKey: Bytes -> bool,
                     build: (PublicView, nat) -> Option<seq<Document>>)

  // Certificates.

  predicate SigningCA(c: Certificate) {
    c.isCA && c.certSign && 0 < c.size <= MAX_DER
  }

  predicate SignedBy(c: Certificate, parent: Certificate) {
    c.signer == parent.publicKey
  }

  // The parts of validity.

  predicate WithinBounds(s: Snapshot) {
    && |s.relationships| <= MAX_RELATIONSHIPS
    && |s.certificates| <= MAX_CERTIFICATES
    && |s.pending| <= MAX_PENDING
    && |s.burned| <= MAX_CERTIFICATES
    && |s.revocations| <= MAX_REVOCATIONS
    && |s.federations| <= MAX_FEDERATIONS
    && |s.bundles| <= MAX_BUNDLES
    && |s.grants| <= MAX_GRANTS
    && |s.outbox| <= MAX_OUTBOX
    && |s.published| <= MAX_PUBLISHED
  }

  predicate ValidCA(s: Snapshot)
    requires s.identity.Some?
  {
    var domain := s.identity.value;
    match s.activeCA
    case None => domain !in s.bundles
    case Some(ca) =>
      && SigningCA(ca) && ca.subject == domain && SignedBy(ca, ca) && ca.serial > 0
      && domain in s.bundles
      && 0 < |s.bundles[domain].certificates| && s.bundles[domain].certificates[0] == ca
  }

  predicate ValidRelationship(env: Env, owner: Name, id: RelationshipID, r: Relationship) {
    && r.id == id
    && r.target == owner
    && env.canonical(r.principal)
    && r.generation != 0
    && r.establishedAt != 0
    && r.updatedAt >= r.establishedAt
  }

  predicate Live(r: Relationship) {
    r.phase != Revoked
  }

  predicate LiveAt(s: Snapshot, id: RelationshipID) {
    id in s.relationships && Live(s.relationships[id])
  }

  predicate LiveOwnerAt(s: Snapshot, id: RelationshipID) {
    LiveAt(s, id) && s.relationships[id].role == Owner
  }

  predicate AuthorizedOwnerAt(s: Snapshot, id: RelationshipID) {
    LiveOwnerAt(s, id) && s.relationships[id].phase == Authorized
  }

  predicate LiveBackupAt(s: Snapshot, id: RelationshipID) {
    LiveAt(s, id) && s.relationships[id].role == BackupAdmin
  }

  ghost predicate OnePerPrincipal(s: Snapshot) {
    forall a, b :: LiveAt(s, a) && LiveAt(s, b) && s.relationships[a].principal == s.relationships[b].principal ==>
           a == b
  }

  ghost predicate OneOwner(s: Snapshot) {
    forall a, b :: LiveOwnerAt(s, a) && LiveOwnerAt(s, b) ==> a == b
  }

  ghost predicate BackupsHaveOwner(s: Snapshot) {
    forall b :: LiveBackupAt(s, b) ==> exists o :: AuthorizedOwnerAt(s, o)
  }

  ghost predicate ValidRelationships(env: Env, s: Snapshot)
    requires s.identity.Some?
  {
    && (forall id :: id in s.relationships ==> ValidRelationship(env, s.identity.value, id, s.relationships[id]))
    && OnePerPrincipal(s)
    && OneOwner(s)
    && BackupsHaveOwner(s)
  }

  predicate ValidLeaf(s: Snapshot, c: Certificate, leaf: Leaf)
    requires s.identity.Some?
  {
    && leaf.certificate == c && 0 < c.size <= MAX_DER
    && leaf.serial == c.serial && leaf.serial > 0
    && leaf.publicKey == c.publicKey && leaf.notBefore == c.notBefore && leaf.notAfter == c.notAfter
    && leaf.issuedAt != 0
    && leaf.name == s.identity.value && c.uri == Some(leaf.name)
    && !c.isCA && c.leafProfile
    && s.activeCA.Some? && SignedBy(c, s.activeCA.value)
    && (leaf.revoked ==> leaf.revokedAt != 0 && c in s.revocations)
    && (leaf.relationship.Some? ==> leaf.relationship.value in s.relationships)
  }

  predicate ValidLeaves(s: Snapshot)
    requires s.identity.Some?
  {
    forall c :: c in s.certificates ==> ValidLeaf(s, c, s.certificates[c])
  }

  predicate IssuesCertificate(op: Operation) {
    op == InitializeCAOp || op == IssueOp || op == FederateOp
  }

  predicate ValidPending(env: Env, id: GrantID, p: Pending) {
    && p.id == id
    && IssuesCertificate(p.operation)
    && p.serial > 0
    && p.createdAt != 0
    && p.notAfter >= p.notBefore
    && env.publicKey(p.publicKey)
  }

  predicate ValidPendings(env: Env, s: Snapshot) {
    forall id :: id in s.pending ==> ValidPending(env, id, s.pending[id])
  }

  predicate ValidBurned(s: Snapshot) {
    forall n :: n in s.burned ==> n > 0 && s.burned[n] != 0
  }

  predicate Complementary(local: FederationRole, remote: FederationRole) {
    local != remote
  }

  predicate ValidFederation(env: Env, s: Snapshot, domain: Name, f: Federation)
    requires s.identity.Some?
  {
    && f.target == domain && f.source == s.identity.value && f.target != f.source
    && env.canonical(f.target)
    && Complementary(f.localRole, f.remoteRole)
    && f.sourceGeneration != 0 && f.establishedAt != 0 && f.updatedAt >= f.establishedAt
    && SigningCA(f.remoteCA) && f.remoteCA.subject == f.target
    && SigningCA(f.cross) && f.cross.subject == f.target && f.crossSerial == f.cross.serial && f.crossSerial > 0
    && s.activeCA.Some? && SignedBy(f.cross, s.activeCA.value)
  }

  predicate ValidFederations(env: Env, s: Snapshot)
    requires s.identity.Some?
  {
    && (forall d :: d in s.federations ==> ValidFederation(env, s, d, s.federations[d]))
    && (forall d, e :: d in s.federations && e in s.federations && s.federations[d].cross == s.federations[e].cross ==>
          d == e)
  }

  /** No federation uses this certificate now. */
  predicate NotInUse(s: Snapshot, c: Certificate) {
    forall d :: d in s.federations ==> s.federations[d].cross != c
  }

  predicate ValidRevocation(env: Env, s: Snapshot, c: Certificate, r: Revocation) {
    && r.certificate == c && r.revokedAt != 0 && 0 < c.size <= MAX_DER && r.serial > 0
    && match r.kind
       case LeafKind =>
         && c in s.certificates && s.certificates[c].serial == r.serial
         && s.certificates[c].revoked && s.certificates[c].revokedAt == r.revokedAt
       case CrossKind =>
         && NotInUse(s, c) && c !in s.certificates
         && SigningCA(c) && c.serial == r.serial && env.canonical(c.subject)
         && s.activeCA.Some? && SignedBy(c, s.activeCA.value)
  }

  predicate ValidRevocations(env: Env, s: Snapshot) {
    forall c :: c in s.revocations ==> ValidRevocation(env, s, c, s.revocations[c])
  }

  predicate ValidBundle(env: Env, domain: Name, b: Bundle) {
    && b.domain == domain && env.canonical(domain)
    && b.generation != 0 && b.updatedAt != 0
    && 1 <= |b.certificates| <= MAX_BUNDLE_CERTIFICATES
    && (forall i :: 0 <= i < |b.certificates| ==> SigningCA(b.certificates[i]) && b.certificates[i].subject == domain)
  }

  predicate ValidBundles(env: Env, s: Snapshot) {
    forall d :: d in s.bundles ==> ValidBundle(env, d, s.bundles[d])
  }

  predicate ValidGrants(s: Snapshot) {
    forall g :: g in s.grants ==> s.grants[g].grant == g && s.grants[g].appliedAt != 0
  }

  predicate ValidOutbox(env: Env, s: Snapshot)
    requires s.identity.Some?
  {
    forall d :: d in s.outbox ==>
      && s.outbox[d].id == d
      && s.outbox[d].stateRevision <= s.revision
      && ValidPublication(env.rules, s.identity.value, s.outbox[d])
  }

  predicate ValidPublishedRecord(env: Env, d: Digest, p: Published) {
    p.digest == d && p.sequence != 0 && p.completedAt != 0 && env.contentID(p.root)
  }

  predicate ValidRecords(env: Env, published: map<Digest, Published>) {
    forall d :: d in published ==> ValidPublishedRecord(env, d, published[d])
  }

  predicate SequencesDiffer(published: map<Digest, Published>) {
    forall d, e :: d in published && e in published && published[d].sequence == published[e].sequence ==> d == e
  }

  /** The highest sequence and its root; nothing at all when there is no publication. */
  predicate TopIs(published: map<Digest, Published>, sequence: nat, root: Bytes) {
    && (forall d :: d in published ==> published[d].sequence <= sequence)
    && (if published.Keys == {} then sequence == 0 && root == []
        else exists d :: d in published && published[d].sequence == sequence && published[d].root == root)
  }

  /** Completed publications have different sequences, and the last sequence and root are the highest's. */
  predicate ValidPublished(env: Env, s: Snapshot) {
    ValidRecords(env, s.published) && SequencesDiffer(s.published) && TopIs(s.published, s.lastSequence, s.lastRoot)
  }

  // Serial numbers.

  /** The places of a snapshot that hold a serial number. */
  datatype Holder =
    | TheCA
    | IssuedLeaf(certificate: Certificate)
    | Reserved(grant: GrantID)
    | Burned(serial: nat)
    | Cross(domain: Name)
    | RetiredCross(certificate: Certificate)

  predicate Holds(s: Snapshot, h: Holder, n: nat) {
    match h
    case TheCA => s.activeCA.Some? && s.activeCA.value.serial == n
    case IssuedLeaf(c) => c in s.certificates && s.certificates[c].serial == n
    case Reserved(g) => g in s.pending && s.pending[g].serial == n
    case Burned(b) => b in s.burned && b == n
    case Cross(d) => d in s.federations && s.federations[d].crossSerial == n
    case RetiredCross(c) => c in s.revocations && s.revocations[c].kind == CrossKind && s.revocations[c].serial == n
  }

  /** No serial is held twice, and all are below the next one. */
  ghost predicate DisjointSerials(s: Snapshot) {
    && (forall h, k, n: nat :: Holds(s, h, n) && Holds(s, k, n) ==> h == k)
    && (forall h, n: nat :: Holds(s, h, n) ==> n < s.nextSerial)
  }

  ghost predicate Held(s: Snapshot, n: nat) {
    exists h :: Holds(s, h, n)
  }

  /** No serial below the next one is lost. */
  ghost predicate CoveredSerials(s: Snapshot) {
    forall n: nat :: 1 <= n < s.nextSerial ==> Held(s, n)
  }

  ghost predicate ValidContent(env: Env, s: Snapshot) {
    && s.identity.Some? && env.canonical(s.identity.value)
    && ValidCA(s)
    && ValidRelationships(env, s)
    && ValidLeaves(s)
    && ValidPendings(env, s)
    && ValidBurned(s)
    && ValidRevocations(env, s)
    && DisjointSerials(s)
    && ValidFederations(env, s)
    && ValidBundles(env, s)
    && ValidGrants(s)
    && ValidOutbox(env, s)
    && ValidPublished(env, s)
  }

  ghost predicate ValidSnapshot(env: Env, s: Snapshot) {
    && s.version == STATE_VERSION
    && s.nextSerial != 0
    && WithinBounds(s)
    && if s.revision == 0 then s == EMPTY else ValidContent(env, s)
  }

  lemma EmptyIsValid(env: Env)
    ensures ValidSnapshot(env, EMPTY) && CoveredSerials(EMPTY)
  {
  }
}
