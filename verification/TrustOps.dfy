/** The trust operations: from the snapshot an operation read and what its helpers answered, the snapshot it wants
    next. */
module TrustOps {
  import opened Common
  import opened Codec
  import opened PublicData
  import opened TrustTypes

  /** A client whose certificate chain was verified: the name in it and its hash. */
  datatype Peer = Peer(name: Name, certificate: Bytes)

  /** What the authorization policy answers. Absent values are those it left empty or filled with an unknown word. */
  datatype Grant = Grant(
    id: GrantID,
    wellFormed: bool,
    expectedRevision: nat,
    expiresAt: nat,
    role: Option<Role>,
    phase: Option<Phase>,
    related: Option<RelationshipID>,
    localRole: Option<FederationRole>,
    remoteRole: Option<FederationRole>,
    sourceGeneration: nat,
    notBefore: nat,
    notAfter: nat)

  datatype Material = Material(remoteCA: Certificate, sourceGeneration: nat)

  datatype Receipt = Receipt(publicationID: Digest, digest: Digest, ipnsName: Name, root: Bytes, sequence: nat)

  datatype Config = Config(identity: Name, maximumGrantLifetime: nat, maximumCertificateLifetime: nat)

  /** An operation at its commit: everything it was given from outside. `call` numbers its call of the document
      builder. */
  datatype Request =
    | Bind
    | Adopt(peer: Peer, target: Name, grant: Grant, call: nat, now: nat)
    | RevokeTrust(peer: Peer, relationship: RelationshipID, grant: Grant, call: nat, now: nat)
    | RevokeCertificate(peer: Peer, certificate: Certificate, grant: Grant, call: nat, now: nat)
    | ReserveCA(grant: Grant, publicKey: Bytes, now: nat)
    | ReserveLeaf(grant: Grant, publicKey: Bytes, now: nat)
    | ReserveCross(peer: Peer, remote: Name, material: Material, grant: Grant, now: nat)
    | FinalizeCA(id: GrantID, certificate: Certificate, call: nat, now: nat)
    | FinalizeLeaf(id: GrantID, certificate: Certificate, call: nat, now: nat)
    | FinalizeCross(id: GrantID, certificate: Certificate, edge: Edge, call: nat, now: nat)
    | Burn(ids: set<GrantID>, call: nat, now: nat)
    | Drain(item: Digest, receipt: Receipt, pruned: Option<Digest>, now: nat)

  /** What a federation request carries from its reservation to its completion. */
  datatype Edge = Edge(remote: Name, localRole: FederationRole, remoteRole: FederationRole, material: Material,
                       startedAt: nat)

  // Grants.

  predicate ValidGrant(cfg: Config, g: Grant, revision: nat, now: nat) {
    && g.wellFormed
    && g.expectedRevision == revision
    && g.expiresAt != 0 && g.expiresAt > now
    && g.expiresAt <= now + cfg.maximumGrantLifetime
  }

  /** The policy's answer is valid for this snapshot and was not used before. */
  predicate Granted(cfg: Config, s: Snapshot, g: Grant, now: nat) {
    ValidGrant(cfg, g, s.revision, now) && g.id !in s.grants
  }

  predicate ValidCertificateGrant(cfg: Config, g: Grant, now: nat) {
    && g.notBefore != 0 && g.notAfter != 0 && g.notAfter > g.notBefore && g.notAfter > now
    && g.notAfter - g.notBefore <= cfg.maximumCertificateLifetime
  }

  function Next(s: Snapshot): Snapshot {
    s.(revision := s.revision + 1)
  }

  function WithGrant(s: Snapshot, g: Grant, op: Operation, now: nat): Snapshot {
    s.(grants := s.grants[g.id := AppliedGrant(g.id, op, now)])
  }

  /** A 64-bit counter's successor. */
  function Bump(n: nat): nat {
    if n >= MAX_UINT64 then 0 else n + 1
  }

  // The public view and the outbox.

  function PublicLeaf(l: Leaf): PublicCertificate {
    PublicCertificate(l.certificate, l.name, l.serial, l.notBefore, l.notAfter, l.revoked)
  }

  function KnownRevocation(c: Certificate, r: Revocation): PublicRevocation {
    PublicRevocation(OfCertificate(c), Some(c), r.serial, Some(r.kind), r.revokedAt)
  }

  function UncertainRevocation(domain: Option<Name>, n: nat, revokedAt: nat): PublicRevocation {
    PublicRevocation(OfSerial(domain, n), None, n, None, revokedAt)
  }

  function PublicEdge(f: Federation): PublicFederation {
    PublicFederation(f.source, f.target, f.sourceGeneration, f.remoteCA, f.cross, f.establishedAt)
  }

  /** What is public of a snapshot. */
  function View(s: Snapshot): PublicView {
    PublicView(
      s.revision,
      s.identity,
      s.activeCA,
      set c | c in s.certificates :: PublicLeaf(s.certificates[c]),
      (set c | c in s.revocations :: KnownRevocation(c, s.revocations[c]))
      + (set n | n in s.burned :: UncertainRevocation(s.identity, n, s.burned[n])),
      set d | d in s.federations :: PublicEdge(s.federations[d]))
  }

  /** The public views are equal apart from the revision. */
  predicate SameView(a: Snapshot, b: Snapshot) {
    View(a).(revision := 0) == View(b).(revision := 0)
  }

  /** The publication of this snapshot's own public view, if the builder makes documents of it. */
  function PublicationOf(env: Env, cfg: Config, s: Snapshot, call: nat, now: nat): Option<Publication> {
    var docs := env.build(View(s), call);
    if docs.None? then None else NewPublication(env.rules, cfg.identity, s.revision, docs.value, now)
  }

  /** The new outbox: one publication of the new revision, and nothing else. */
  function Attach(env: Env, cfg: Config, s: Snapshot, call: nat, now: nat): Option<Snapshot> {
    var p := PublicationOf(env, cfg, s, call, now);
    if p.None? || p.value.id in s.published then None else Some(s.(outbox := map[p.value.id := p.value]))
  }

  // Relationships.

  predicate HasLive(s: Snapshot, principal: Name) {
    exists id :: id in s.relationships && LiveAt(s, id) && s.relationships[id].principal == principal
  }

  predicate HasOwner(s: Snapshot) {
    exists id :: id in s.relationships && LiveOwnerAt(s, id)
  }

  predicate HasAuthorizedOwner(s: Snapshot) {
    exists id :: id in s.relationships && AuthorizedOwnerAt(s, id)
  }

  predicate AuthorizedAsOwner(s: Snapshot, peer: Peer) {
    exists id :: id in s.relationships && AuthorizedOwnerAt(s, id)
                 && s.relationships[id].principal == peer.name
                 && s.relationships[id].principalCertificate == peer.certificate
  }

  /** A provisional relationship that this grant turns into an authorized one. */
  predicate Upgrades(s: Snapshot, peer: Peer, g: Grant)
    requires g.related.Some? && g.role.Some? && g.phase.Some?
  {
    && g.related.value in s.relationships
    && var r := s.relationships[g.related.value];
       r.phase == Provisional && r.principal == peer.name && r.role == g.role.value && g.phase.value == Authorized
  }

  /** A new relationship is possible: no live one for this principal, and the owner rules hold. */
  predicate Admits(s: Snapshot, peer: Peer, g: Grant)
    requires g.role.Some? && g.phase.Some?
  {
    && !HasLive(s, peer.name)
    && if g.phase.value == Provisional then g.role.value == Owner && !HasOwner(s)
       else if g.role.value == Owner then !HasOwner(s)
       else HasAuthorizedOwner(s)
  }

  /** The relationships after an adoption: a provisional one authorized, or a new one. */
  function AdoptedInto(s: Snapshot, owner: Name, peer: Peer, g: Grant,
                       now: nat): Option<map<RelationshipID, Relationship>> {
    if g.role.None? || g.phase.None? || g.phase.value == Revoked then None
    else if g.related.Some? then
      if !Upgrades(s, peer, g) then None
      else
        var r := s.relationships[g.related.value];
        Some(s.relationships[r.id := r.(phase := Authorized, generation := Bump(r.generation), updatedAt := now)])
    else if !Admits(s, peer, g) then None
    else
      var id := RelationshipID(g.id, owner, peer.name);
      Some(s.relationships[id := Relationship(id, owner, peer.name, peer.certificate, g.role.value, g.phase.value, 1,
                                              now, now)])
  }

  predicate BoundTo(leaf: Leaf, id: RelationshipID) {
    leaf.relationship == Some(id) && !leaf.revoked
  }

  function BoundCertificates(s: Snapshot, id: RelationshipID): set<Certificate> {
    set c | c in s.certificates && BoundTo(s.certificates[c], id)
  }

  /** The relationship and every certificate bound to it are revoked together. */
  ghost function RelationshipRevoked(s: Snapshot, id: RelationshipID, now: nat): Snapshot
    requires id in s.relationships
  {
    var r := s.relationships[id];
    var cs := BoundCertificates(s, id);
    s.(relationships := s.relationships[id := r.(phase := Revoked, generation := Bump(r.generation), updatedAt := now)],
       certificates :=
         Overridden(s.certificates, cs,
                    c requires c in s.certificates => s.certificates[c].(revoked := true, revokedAt := now)),
       revocations :=
         Overridden(s.revocations, cs,
                    c requires c in s.certificates =>
                      Revocation(s.certificates[c].certificate, s.certificates[c].serial, LeafKind, now)))
  }

  function LeafRevoked(s: Snapshot, c: Certificate, now: nat): Snapshot
    requires c in s.certificates
  {
    var leaf := s.certificates[c];
    s.(certificates := s.certificates[c := leaf.(revoked := true, revokedAt := now)],
       revocations := s.revocations[c := Revocation(leaf.certificate, leaf.serial, LeafKind, now)])
  }

  // Issuing.

  function Reservation(cfg: Config, s: Snapshot, g: Grant, op: Operation, remote: Option<Name>, publicKey: Bytes,
                       now: nat): Pending {
    Pending(g.id, g.id, op, remote, cfg.identity, s.nextSerial, publicKey, g.notBefore, g.notAfter, now)
  }

  /** Takes the next serial and stores the intent to sign with it. */
  function Reserve(cfg: Config, s: Snapshot, g: Grant, op: Operation, remote: Option<Name>, publicKey: Bytes,
                   now: nat): Snapshot {
    WithGrant(s.(nextSerial := s.nextSerial + 1,
                 pending := s.pending[g.id := Reservation(cfg, s, g, op, remote, publicKey, now)]),
              g, op, now)
  }

  predicate MayReserve(cfg: Config, s: Snapshot, g: Grant, now: nat) {
    s.pending.Keys == {} && Granted(cfg, s, g, now) && ValidCertificateGrant(cfg, g, now) && s.nextSerial < MAX_UINT64
  }

  /** The remote authority may be certified: it is newer than what is known, and it is what it says it is. */
  predicate MayFederate(env: Env, cfg: Config, s: Snapshot, peer: Peer, remote: Name, m: Material, g: Grant) {
    && env.canonical(remote) && remote != cfg.identity
    && AuthorizedAsOwner(s, peer)
    && s.activeCA.Some?
    && g.localRole.Some? && g.remoteRole.Some? && Complementary(g.localRole.value, g.remoteRole.value)
    && m.sourceGeneration != 0 && m.sourceGeneration == g.sourceGeneration
    && (remote in s.federations ==> m.sourceGeneration > s.federations[remote].sourceGeneration)
    && SigningCA(m.remoteCA) && m.remoteCA.subject == remote
  }

  /** What a federation's own checks have established about the remote side. */
  predicate SoundEdge(env: Env, cfg: Config, e: Edge) {
    && env.canonical(e.remote) && e.remote != cfg.identity
    && Complementary(e.localRole, e.remoteRole)
    && e.material.sourceGeneration != 0 && e.startedAt != 0
    && SigningCA(e.material.remoteCA) && e.material.remoteCA.subject == e.remote
  }

  /** What a federation request keeps for its completion. */
  function EdgeOf(q: Request): Option<Edge> {
    if q.ReserveCross? && q.grant.localRole.Some? && q.grant.remoteRole.Some? then
      Some(Edge(q.remote, q.grant.localRole.value, q.grant.remoteRole.value, q.material, q.now))
    else None
  }

  /** What is checked of an issued certificate before it is used. */
  predicate Issued(cfg: Config, parent: Option<Certificate>, p: Pending, c: Certificate) {
    && c.serial == p.serial && c.publicKey == p.publicKey && c.notBefore >= p.notBefore && c.notAfter <= p.notAfter
    && match p.operation
       case InitializeCAOp => c.isCA && c.certSign && c.subject == cfg.identity && SignedBy(c, c)
       case IssueOp =>
         !c.isCA && c.leafProfile && c.uri == Some(cfg.identity) && parent.Some? && SignedBy(c, parent.value)
       case FederateOp => c.isCA && p.remote == Some(c.subject) && parent.Some? && SignedBy(c, parent.value)
       case _ => false
  }

  function LeafOf(name: Name, c: Certificate, now: nat): Leaf {
    Leaf(c, None, name, c.serial, c.publicKey, c.notBefore, c.notAfter, false, now, 0)
  }

  function Unreserved(s: Snapshot, ids: set<GrantID>): Snapshot {
    s.(pending := s.pending - ids)
  }

  function CAInstalled(s: Snapshot, name: Name, c: Certificate, now: nat): Snapshot {
    s.(activeCA := Some(c), bundles := s.bundles[name := Bundle(name, 1, [c], now)])
  }

  function LeafInstalled(s: Snapshot, name: Name, c: Certificate, now: nat): Snapshot {
    s.(certificates := s.certificates[c := LeafOf(name, c, now)])
  }

  /** The new edge replaces an older one for the same domain, whose certificate is retired. */
  function CrossInstalled(s: Snapshot, name: Name, c: Certificate, serial: nat, e: Edge, now: nat): Snapshot {
    var known := e.remote in s.federations;
    var established := if known then s.federations[e.remote].establishedAt else e.startedAt;
    s.(federations := s.federations[e.remote :=
         Federation(name, e.remote, e.localRole, e.remoteRole, e.material.sourceGeneration, e.material.remoteCA, c,
                    serial, established, now)],
       bundles := s.bundles[e.remote := Bundle(e.remote, e.material.sourceGeneration, [e.material.remoteCA], now)],
       revocations := if !known then s.revocations
         else s.revocations[s.federations[e.remote].cross :=
                Revocation(s.federations[e.remote].cross, s.federations[e.remote].crossSerial, CrossKind, now)])
  }

  function SerialsOf(s: Snapshot, ids: set<GrantID>): set<nat> {
    set g | g in ids && g in s.pending :: s.pending[g].serial
  }

  ghost function SerialsBurned(s: Snapshot, ids: set<GrantID>, now: nat): Snapshot {
    s.(pending := s.pending - ids, burned := Overridden(s.burned, SerialsOf(s, ids), n => now))
  }

  // Draining.

  predicate IsOldestItem(s: Snapshot, d: Digest) {
    d in s.outbox && forall e :: e in s.outbox ==> s.outbox[d].stateRevision <= s.outbox[e].stateRevision
  }

  predicate IsOldestPublished(published: map<Digest, Published>, d: Digest) {
    d in published && forall e :: e in published ==> published[d].sequence <= published[e].sequence
  }

  predicate ValidReceipt(env: Env, r: Receipt, p: Publication, lastSequence: nat) {
    && r.publicationID == p.id && r.digest == p.digest && r.ipnsName == p.ipnsName
    && env.contentID(r.root)
    && r.sequence > lastSequence
  }

  function Drained(s: Snapshot, p: Publication, r: Receipt, pruned: Option<Digest>, now: nat): Snapshot {
    var kept := if pruned.Some? then s.published - {pruned.value} else s.published;
    s.(outbox := s.outbox - {p.id}, published := kept[p.id := Published(p.digest, r.root, r.sequence, now)],
       lastSequence := r.sequence, lastRoot := r.root)
  }

  /** Finds the completed publication with the lowest sequence. */
  method FindOldestPublished(published: map<Digest, Published>) returns (oldest: Option<Digest>)
    ensures published.Keys == {} <==> oldest.None?
    ensures oldest.Some? ==> IsOldestPublished(published, oldest.value)
  {
    oldest := None;
    var done: set<Digest> := {};
    var rest := published.Keys;
    while rest != {}
      invariant done + rest == published.Keys
      invariant done == {} <==> oldest.None?
      invariant oldest.Some? ==>
                  && oldest.value in done
                  && (forall e :: e in done ==> published[oldest.value].sequence <= published[e].sequence)
      decreases rest
    {
      var d :| d in rest;
      if oldest.None? || published[d].sequence < published[oldest.value].sequence {
        oldest := Some(d);
      }
      done, rest := done + {d}, rest - {d};
    }
  }

  // The operations.

  /** First use of a store: it is bound to the identity. */
  function BindNext(cfg: Config, s: Snapshot): Option<Snapshot> {
    if s.revision == 0 then Some(s.(identity := Some(cfg.identity), revision := 1)) else None
  }

  function AdoptNext(env: Env, cfg: Config, s: Snapshot, peer: Peer, target: Name, g: Grant,
                     call: nat, now: nat)
    : Option<Snapshot>
  {
    if now == 0 || !env.canonical(peer.name) || target != cfg.identity || !Granted(cfg, s, g, now) then None
    else
      var adopted := AdoptedInto(s, cfg.identity, peer, g, now);
      if adopted.None? then None
      else Attach(env, cfg, WithGrant(Next(s).(relationships := adopted.value), g, AdoptOp, now), call, now)
  }

  ghost function RevokeTrustNext(env: Env, cfg: Config, s: Snapshot, peer: Peer, id: RelationshipID, g: Grant,
                           call: nat, now: nat)
    : Option<Snapshot>
  {
    if now == 0 || !AuthorizedAsOwner(s, peer) || !LiveAt(s, id) || !Granted(cfg, s, g, now) then None
    else Attach(env, cfg, WithGrant(RelationshipRevoked(Next(s), id, now), g, RevokeTrustOp, now), call, now)
  }

  function RevokeCertificateNext(env: Env, cfg: Config, s: Snapshot, peer: Peer, c: Certificate, g: Grant,
                                 call: nat, now: nat)
    : Option<Snapshot>
  {
    if now == 0 || !AuthorizedAsOwner(s, peer) || c !in s.certificates || s.certificates[c].revoked
       || !Granted(cfg, s, g, now) then None
    else Attach(env, cfg, WithGrant(LeafRevoked(Next(s), c, now), g, RevokeCertificateOp, now), call, now)
  }

  function ReserveCANext(env: Env, cfg: Config, s: Snapshot, g: Grant, key: Bytes, now: nat): Option<Snapshot> {
    if now == 0 || s.activeCA.Some? || !MayReserve(cfg, s, g, now) || !env.publicKey(key) then None
    else Some(Reserve(cfg, Next(s), g, InitializeCAOp, None, key, now))
  }

  function ReserveLeafNext(env: Env, cfg: Config, s: Snapshot, g: Grant, key: Bytes, now: nat): Option<Snapshot> {
    if now == 0 || s.activeCA.None? || !MayReserve(cfg, s, g, now) || !env.publicKey(key) then None
    else Some(Reserve(cfg, Next(s), g, IssueOp, None, key, now))
  }

  function ReserveCrossNext(env: Env, cfg: Config, s: Snapshot, peer: Peer, remote: Name, m: Material, g: Grant,
                            now: nat): Option<Snapshot> {
    if now == 0 || !MayFederate(env, cfg, s, peer, remote, m, g) || !MayReserve(cfg, s, g, now) then None
    else if !env.publicKey(m.remoteCA.publicKey) then None
    else Some(Reserve(cfg, Next(s), g, FederateOp, Some(remote), m.remoteCA.publicKey, now))
  }

  function FinalizeCANext(env: Env, cfg: Config, s: Snapshot, id: GrantID, c: Certificate,
                          call: nat, now: nat): Option<Snapshot> {
    if now == 0 || id !in s.pending || s.activeCA.Some? then None
    else Attach(env, cfg, CAInstalled(Unreserved(Next(s), {id}), cfg.identity, c, now), call, now)
  }

  function FinalizeLeafNext(env: Env, cfg: Config, s: Snapshot, id: GrantID, c: Certificate,
                            call: nat, now: nat): Option<Snapshot> {
    if now == 0 || id !in s.pending || c in s.certificates then None
    else Attach(env, cfg, LeafInstalled(Unreserved(Next(s), {id}), cfg.identity, c, now), call, now)
  }

  function FinalizeCrossNext(env: Env, cfg: Config, s: Snapshot, id: GrantID, c: Certificate, e: Edge,
                             call: nat, now: nat)
    : Option<Snapshot>
  {
    if now == 0 || id !in s.pending then None
    else if e.remote in s.federations
            && e.material.sourceGeneration <= s.federations[e.remote].sourceGeneration then None
    else Attach(env, cfg, CrossInstalled(Unreserved(Next(s), {id}), cfg.identity, c, s.pending[id].serial, e, now),
                call, now)
  }

  ghost function BurnNext(env: Env, cfg: Config, s: Snapshot, ids: set<GrantID>, call: nat,
                    now: nat): Option<Snapshot> {
    if now == 0 || ids * s.pending.Keys == {} then None
    else Attach(env, cfg, SerialsBurned(Next(s), ids, now), call, now)
  }

  function DrainNext(env: Env, s: Snapshot, d: Digest, r: Receipt, pruned: Option<Digest>, now: nat): Option<Snapshot> {
    if !IsOldestItem(s, d) || !ValidReceipt(env, r, s.outbox[d], s.lastSequence)
       || !PrunesRightly(s.published, pruned) then None
    else Some(Drained(Next(s), s.outbox[d], r, pruned, now))
  }

  /** The oldest completed publication gives way when the collection is full, and none otherwise. */
  predicate PrunesRightly(published: map<Digest, Published>, pruned: Option<Digest>) {
    if |published| >= MAX_PUBLISHED then pruned.Some? && IsOldestPublished(published, pruned.value) else pruned.None?
  }

  /** The snapshot an operation wants next, or nothing if it refuses. */
  ghost function Candidate(env: Env, cfg: Config, s: Snapshot, q: Request): Option<Snapshot> {
    match q
    case Bind => BindNext(cfg, s)
    case Adopt(peer, target, g, call, now) => AdoptNext(env, cfg, s, peer, target, g, call, now)
    case RevokeTrust(peer, id, g, call, now) => RevokeTrustNext(env, cfg, s, peer, id, g, call, now)
    case RevokeCertificate(peer, c, g, call, now) => RevokeCertificateNext(env, cfg, s, peer, c, g, call, now)
    case ReserveCA(g, key, now) => ReserveCANext(env, cfg, s, g, key, now)
    case ReserveLeaf(g, key, now) => ReserveLeafNext(env, cfg, s, g, key, now)
    case ReserveCross(peer, remote, m, g, now) => ReserveCrossNext(env, cfg, s, peer, remote, m, g, now)
    case FinalizeCA(id, c, call, now) => FinalizeCANext(env, cfg, s, id, c, call, now)
    case FinalizeLeaf(id, c, call, now) => FinalizeLeafNext(env, cfg, s, id, c, call, now)
    case FinalizeCross(id, c, e, call, now) => FinalizeCrossNext(env, cfg, s, id, c, e, call, now)
    case Burn(ids, call, now) => BurnNext(env, cfg, s, ids, call, now)
    case Drain(d, r, pruned, now) => DrainNext(env, s, d, r, pruned, now)
  }

  /** The grant an operation consumes. */
  function GrantOf(q: Request): Option<GrantID> {
    match q
    case Adopt(_, _, g, _, _) => Some(g.id)
    case RevokeTrust(_, _, g, _, _) => Some(g.id)
    case RevokeCertificate(_, _, g, _, _) => Some(g.id)
    case ReserveCA(g, _, _) => Some(g.id)
    case ReserveLeaf(g, _, _) => Some(g.id)
    case ReserveCross(_, _, _, g, _) => Some(g.id)
    case _ => None
  }

  predicate Reserves(q: Request) {
    q.ReserveCA? || q.ReserveLeaf? || q.ReserveCross?
  }

  predicate Publishes(q: Request) {
    !q.Bind? && !Reserves(q) && !q.Drain?
  }
}
