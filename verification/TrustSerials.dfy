/** What each trust operation changes, and serial numbers through it: each stays with its holder or moves to
    one other. */
module TrustSerials {
  import opened Common
  import opened Codec
  import opened PublicData
  import opened TrustTypes
  import opened TrustOps

  /** The grant is new, and used from here on. */
  predicate Consumes(s: Snapshot, t: Snapshot, g: GrantID) {
    g !in s.grants && t.grants.Keys == s.grants.Keys + {g}
  }

  /** The outbox is exactly the publication of the new snapshot's own public view. */
  predicate Announces(env: Env, cfg: Config, t: Snapshot, call: nat, now: nat) {
    var p := PublicationOf(env, cfg, t, call, now);
    p.Some? && t.outbox == map[p.value.id := p.value]
  }

  lemma ViewWithoutOutbox(s: Snapshot, t: Snapshot)
    requires t == s.(outbox := t.outbox)
    ensures View(t) == View(s)
  {
  }

  lemma AttachFacts(env: Env, cfg: Config, s: Snapshot, call: nat, now: nat)
    requires Attach(env, cfg, s, call, now).Some?
    ensures var t := Attach(env, cfg, s, call, now).value;
            t == s.(outbox := t.outbox) && Announces(env, cfg, t, call, now)
  {
    ViewWithoutOutbox(s, Attach(env, cfg, s, call, now).value);
    hide View;
  }

  // What each operation changes: everything else is as before.

  lemma BindFacts(cfg: Config, s: Snapshot)
    requires BindNext(cfg, s).Some?
    ensures var t := BindNext(cfg, s).value; t == s.(revision := s.revision + 1, identity := Some(cfg.identity))
  {
  }

  lemma GrantFacts(s: Snapshot, t: Snapshot, g: Grant, op: Operation, now: nat)
    requires g.id !in s.grants && t.grants == s.grants
    ensures var u := WithGrant(t, g, op, now); u == t.(grants := u.grants) && Consumes(s, u, g.id)
  {
  }

  lemma AdoptFacts(env: Env, cfg: Config, s: Snapshot, peer: Peer, target: Name, g: Grant,
                   call: nat, now: nat)
    requires AdoptNext(env, cfg, s, peer, target, g, call, now).Some?
    ensures var t := AdoptNext(env, cfg, s, peer, target, g, call, now).value;
            && t == s.(revision := s.revision + 1, relationships := t.relationships, grants := t.grants,
                       outbox := t.outbox)
            && Consumes(s, t, g.id) && Announces(env, cfg, t, call, now)
  {
    var t := Next(s).(relationships := AdoptedInto(s, cfg.identity, peer, g, now).value);
    GrantFacts(s, t, g, AdoptOp, now);
    hide Attach, Announces, AdoptedInto, WithGrant, Consumes, ValidGrant;
    AttachFacts(env, cfg, WithGrant(t, g, AdoptOp, now), call, now);
  }

  /** Revoking keeps the certificates with their serials, and keeps every retired cross-certificate. */
  predicate RevokesOnly(s: Snapshot, t: Snapshot) {
    && t.certificates.Keys == s.certificates.Keys
    && (forall c :: c in s.certificates ==> t.certificates[c].serial == s.certificates[c].serial)
    && s.revocations.Keys <= t.revocations.Keys
    && (forall c :: c in s.revocations && c !in s.certificates ==> t.revocations[c] == s.revocations[c])
  }

  lemma RelationshipRevokedFacts(s: Snapshot, id: RelationshipID, now: nat)
    requires id in s.relationships
    ensures var t := RelationshipRevoked(s, id, now);
            && t == s.(relationships := t.relationships, certificates := t.certificates, revocations := t.revocations)
            && RevokesOnly(s, t)
  {
  }

  lemma RevokeTrustFacts(env: Env, cfg: Config, s: Snapshot, peer: Peer, id: RelationshipID, g: Grant,
                         call: nat, now: nat)
    requires RevokeTrustNext(env, cfg, s, peer, id, g, call, now).Some?
    ensures var t := RevokeTrustNext(env, cfg, s, peer, id, g, call, now).value;
            && t == s.(revision := s.revision + 1, relationships := t.relationships, certificates := t.certificates,
                       revocations := t.revocations, grants := t.grants, outbox := t.outbox)
            && RevokesOnly(s, t) && Consumes(s, t, g.id) && Announces(env, cfg, t, call, now)
  {
    hide Attach, Announces;
    var t := RelationshipRevoked(Next(s), id, now);
    RelationshipRevokedFacts(Next(s), id, now);
    GrantFacts(s, t, g, RevokeTrustOp, now);
    hide RelationshipRevoked, WithGrant, Consumes, AuthorizedAsOwner, ValidGrant;
    AttachFacts(env, cfg, WithGrant(t, g, RevokeTrustOp, now), call, now);
  }

  lemma LeafRevokedFacts(s: Snapshot, c: Certificate, now: nat)
    requires c in s.certificates
    ensures var t := LeafRevoked(s, c, now);
            && t == s.(certificates := t.certificates, revocations := t.revocations)
            && RevokesOnly(s, t)
  {
  }

  lemma RevokeCertificateFacts(env: Env, cfg: Config, s: Snapshot, peer: Peer, c: Certificate, g: Grant,
                               call: nat, now: nat)
    requires RevokeCertificateNext(env, cfg, s, peer, c, g, call, now).Some?
    ensures var t := RevokeCertificateNext(env, cfg, s, peer, c, g, call, now).value;
            && t == s.(revision := s.revision + 1, certificates := t.certificates,
                       revocations := t.revocations, grants := t.grants, outbox := t.outbox)
            && RevokesOnly(s, t) && Consumes(s, t, g.id) && Announces(env, cfg, t, call, now)
  {
    hide Attach, Announces;
    var t := LeafRevoked(Next(s), c, now);
    LeafRevokedFacts(Next(s), c, now);
    GrantFacts(s, t, g, RevokeCertificateOp, now);
    hide LeafRevoked, WithGrant, Consumes, AuthorizedAsOwner, ValidGrant;
    AttachFacts(env, cfg, WithGrant(t, g, RevokeCertificateOp, now), call, now);
  }

  /** A reservation takes the next serial, the only one in flight. */
  predicate ReservesOnly(s: Snapshot, t: Snapshot, g: GrantID) {
    && t == s.(revision := s.revision + 1, nextSerial := s.nextSerial + 1, pending := t.pending, grants := t.grants)
    && s.pending == map[] && g in t.pending && t.pending == map[g := t.pending[g]]
    && t.pending[g].id == g && t.pending[g].serial == s.nextSerial
    && Consumes(s, t, g)
  }

  lemma ReservationFacts(cfg: Config, s: Snapshot, g: Grant, op: Operation, remote: Option<Name>, key: Bytes, now: nat)
    requires MayReserve(cfg, s, g, now)
    ensures ReservesOnly(s, Reserve(cfg, Next(s), g, op, remote, key, now), g.id)
  {
    hide ValidGrant, ValidCertificateGrant;
  }

  /** The reservation is of the requested kind, under the authority there is; a federation's edge has been checked. */
  predicate RightlyReserved(env: Env, cfg: Config, s: Snapshot, q: Request, p: Pending) {
    match q
    case ReserveCA(_, _, _) => p.operation == InitializeCAOp
    case ReserveLeaf(_, _, _) => p.operation == IssueOp && s.activeCA.Some?
    case ReserveCross(_, remote, _, _, _) =>
      && p.operation == FederateOp && p.remote == Some(remote) && s.activeCA.Some?
      && EdgeOf(q).Some? && SoundEdge(env, cfg, EdgeOf(q).value)
    case _ => true
  }

  lemma ReservedKind(env: Env, cfg: Config, s: Snapshot, q: Request)
    requires Reserves(q) && Candidate(env, cfg, s, q).Some?
    ensures var t := Candidate(env, cfg, s, q).value; var g := GrantOf(q).value;
            g in t.pending && RightlyReserved(env, cfg, s, q, t.pending[g])
  {
    hide BindNext, AdoptNext, RevokeTrustNext, RevokeCertificateNext, FinalizeCANext, FinalizeLeafNext;
    hide FinalizeCrossNext, BurnNext, DrainNext, MayReserve, AuthorizedAsOwner;
  }

  lemma ReserveFacts(env: Env, cfg: Config, s: Snapshot, q: Request)
    requires Reserves(q) && Candidate(env, cfg, s, q).Some?
    ensures ReservesOnly(s, Candidate(env, cfg, s, q).value, GrantOf(q).value)
  {
    hide BindNext, AdoptNext, RevokeTrustNext, RevokeCertificateNext, FinalizeCANext, FinalizeLeafNext;
    hide FinalizeCrossNext, BurnNext, DrainNext;
    hide MayReserve, MayFederate, Reserve, ReservesOnly;
    match q
    case ReserveCA(g, key, now) => ReservationFacts(cfg, s, g, InitializeCAOp, None, key, now);
    case ReserveLeaf(g, key, now) => ReservationFacts(cfg, s, g, IssueOp, None, key, now);
    case ReserveCross(peer, remote, m, g, now) =>
      ReservationFacts(cfg, s, g, FederateOp, Some(remote), m.remoteCA.publicKey, now);
  }

  lemma FinalizeCAFacts(env: Env, cfg: Config, s: Snapshot, id: GrantID, c: Certificate, call: nat,
                        now: nat)
    requires FinalizeCANext(env, cfg, s, id, c, call, now).Some?
    ensures var t := FinalizeCANext(env, cfg, s, id, c, call, now).value;
            && t == s.(revision := s.revision + 1, pending := s.pending - {id}, activeCA := Some(c),
                       bundles := t.bundles, outbox := t.outbox)
            && id in s.pending && s.activeCA.None? && Announces(env, cfg, t, call, now)
  {
    hide Attach, Announces;
    AttachFacts(env, cfg, CAInstalled(Unreserved(Next(s), {id}), cfg.identity, c, now), call, now);
  }

  lemma FinalizeLeafFacts(env: Env, cfg: Config, s: Snapshot, id: GrantID, c: Certificate,
                          call: nat, now: nat)
    requires FinalizeLeafNext(env, cfg, s, id, c, call, now).Some?
    ensures var t := FinalizeLeafNext(env, cfg, s, id, c, call, now).value;
            && t == s.(revision := s.revision + 1, pending := s.pending - {id},
                       certificates := s.certificates[c := LeafOf(cfg.identity, c, now)], outbox := t.outbox)
            && id in s.pending && c !in s.certificates && Announces(env, cfg, t, call, now)
  {
    hide Attach, Announces;
    AttachFacts(env, cfg, LeafInstalled(Unreserved(Next(s), {id}), cfg.identity, c, now), call, now);
  }

  /** The new edge takes the serial; the certificate it replaces, if any, keeps its own as retired. */
  predicate Federates(s: Snapshot, t: Snapshot, serial: nat, remote: Name) {
    && remote in t.federations && t.federations.Keys == s.federations.Keys + {remote}
    && t.federations[remote].crossSerial == serial
    && (forall d :: d in s.federations && d != remote ==> t.federations[d] == s.federations[d])
    && (remote !in s.federations ==> t.revocations == s.revocations)
    && (remote in s.federations ==>
          var f := s.federations[remote];
          f.cross in t.revocations && t.revocations.Keys == s.revocations.Keys + {f.cross}
          && t.revocations[f.cross].kind == CrossKind && t.revocations[f.cross].serial == f.crossSerial
          && (forall c :: c in s.revocations && c != f.cross ==> t.revocations[c] == s.revocations[c]))
  }

  lemma CrossInstalledFacts(s: Snapshot, name: Name, c: Certificate, serial: nat, e: Edge, now: nat)
    ensures var t := CrossInstalled(s, name, c, serial, e, now);
            && t == s.(federations := t.federations, revocations := t.revocations, bundles := t.bundles)
            && Federates(s, t, serial, e.remote)
  {
  }

  lemma FinalizeCrossFacts(env: Env, cfg: Config, s: Snapshot, id: GrantID, c: Certificate, e: Edge,
                           call: nat, now: nat)
    requires FinalizeCrossNext(env, cfg, s, id, c, e, call, now).Some?
    ensures var t := FinalizeCrossNext(env, cfg, s, id, c, e, call, now).value;
            && t == s.(revision := s.revision + 1, pending := s.pending - {id}, federations := t.federations,
                       revocations := t.revocations, bundles := t.bundles, outbox := t.outbox)
            && id in s.pending && Federates(s, t, s.pending[id].serial, e.remote) && Announces(env, cfg, t, call, now)
  {
    hide Attach, Announces;
    var base := Unreserved(Next(s), {id});
    CrossInstalledFacts(base, cfg.identity, c, s.pending[id].serial, e, now);
    hide CrossInstalled;
    AttachFacts(env, cfg, CrossInstalled(base, cfg.identity, c, s.pending[id].serial, e, now), call, now);
  }

  lemma BurnFacts(env: Env, cfg: Config, s: Snapshot, ids: set<GrantID>, call: nat, now: nat)
    requires BurnNext(env, cfg, s, ids, call, now).Some?
    ensures var t := BurnNext(env, cfg, s, ids, call, now).value;
            && t == s.(revision := s.revision + 1, pending := s.pending - ids, burned := t.burned, outbox := t.outbox)
            && t.burned.Keys == s.burned.Keys + SerialsOf(s, ids) && Announces(env, cfg, t, call, now)
  {
    hide Attach, Announces;
    AttachFacts(env, cfg, SerialsBurned(Next(s), ids, now), call, now);
  }

  lemma DrainFacts(env: Env, s: Snapshot, d: Digest, r: Receipt, pruned: Option<Digest>, now: nat)
    requires DrainNext(env, s, d, r, pruned, now).Some?
    ensures var t := DrainNext(env, s, d, r, pruned, now).value;
            && t == s.(revision := s.revision + 1, outbox := s.outbox - {s.outbox[d].id}, published := t.published,
                       lastSequence := r.sequence, lastRoot := r.root)
            && d in s.outbox
  {
    hide ValidReceipt, PrunesRightly;
  }

  // Serials.

  /** What a completed signature brings back carries the serial that was reserved for it. */
  predicate CarriesSerial(s: Snapshot, q: Request) {
    match q
    case FinalizeCA(id, c, _, _) => id in s.pending ==> c.serial == s.pending[id].serial
    case FinalizeLeaf(id, c, _, _) => id in s.pending ==> c.serial == s.pending[id].serial
    case _ => true
  }

  /** Where a holder's serial goes. */
  function Heir(s: Snapshot, q: Request, h: Holder): Holder {
    match q
    case FinalizeCA(id, _, _, _) => if h == Reserved(id) then TheCA else h
    case FinalizeLeaf(id, c, _, _) => if h == Reserved(id) then IssuedLeaf(c) else h
    case FinalizeCross(id, _, e, _, _) =>
      if h == Reserved(id) then Cross(e.remote)
      else if h == Cross(e.remote) && e.remote in s.federations then RetiredCross(s.federations[e.remote].cross)
      else h
    case Burn(ids, _, _) =>
      if h.Reserved? && h.grant in ids && h.grant in s.pending then Burned(s.pending[h.grant].serial) else h
    case _ => h
  }

  lemma RevocationMoves(env: Env, s: Snapshot, t: Snapshot, h: Holder, n: nat)
    requires ValidRevocations(env, s) && RevokesOnly(s, t) && Holds(s, h, n)
    requires t.activeCA == s.activeCA && t.pending == s.pending && t.burned == s.burned
    requires t.federations == s.federations
    ensures Holds(t, h, n)
  {
    if h.RetiredCross? {
      assert ValidRevocation(env, s, h.certificate, s.revocations[h.certificate]);
    }
  }

  lemma LeafIsNoCA(s: Snapshot, c: Certificate)
    requires s.identity.Some? && ValidLeaves(s) && c in s.certificates
    ensures !c.isCA
  {
    assert ValidLeaf(s, c, s.certificates[c]);
  }

  lemma CrossIsCA(env: Env, s: Snapshot, d: Name)
    requires s.identity.Some? && ValidFederations(env, s) && d in s.federations
    ensures s.federations[d].cross.isCA && s.federations[d].crossSerial == s.federations[d].cross.serial
  {
    assert ValidFederation(env, s, d, s.federations[d]);
  }

  /** A revocation is of a revoked leaf, or of a cross-certificate that is no leaf and no longer in use. */
  lemma RevokedKind(env: Env, s: Snapshot, c: Certificate)
    requires ValidRevocations(env, s) && c in s.revocations
    ensures s.revocations[c].kind == LeafKind ==> c in s.certificates && s.certificates[c].revoked
    ensures s.revocations[c].kind == CrossKind ==>
              c !in s.certificates && NotInUse(s, c) && s.revocations[c].serial == c.serial
  {
    assert ValidRevocation(env, s, c, s.revocations[c]);
  }

  /** A certificate in use has no revocation yet. */
  lemma InUseIsNotRevoked(env: Env, s: Snapshot, d: Name)
    requires s.identity.Some? && ValidLeaves(s) && ValidRevocations(env, s) && ValidFederations(env, s)
    requires d in s.federations
    ensures s.federations[d].cross !in s.revocations
  {
    hide ValidLeaves, ValidRevocations, ValidFederations;
    var c := s.federations[d].cross;
    CrossIsCA(env, s, d);
    if c in s.revocations {
      RevokedKind(env, s, c);
      if s.revocations[c].kind == LeafKind { LeafIsNoCA(s, c); }
    }
  }

  lemma FederationMoves(s: Snapshot, t: Snapshot, id: GrantID, remote: Name, h: Holder, n: nat)
    requires id in s.pending && Federates(s, t, s.pending[id].serial, remote) && Holds(s, h, n)
    requires remote in s.federations ==> s.federations[remote].cross !in s.revocations
    requires t.activeCA == s.activeCA && t.pending == s.pending - {id} && t.burned == s.burned
    requires t.certificates == s.certificates
    ensures Holds(t, if h == Reserved(id) then Cross(remote)
                     else if h == Cross(remote) && remote in s.federations then
                       RetiredCross(s.federations[remote].cross)
                     else h, n)
  {
  }

  /** Whatever the operation, every serial that had a holder has one afterwards. */
  lemma SerialMoves(env: Env, cfg: Config, s: Snapshot, q: Request, h: Holder, n: nat)
    requires ValidSnapshot(env, s) && CarriesSerial(s, q) && Candidate(env, cfg, s, q).Some? && Holds(s, h, n)
    ensures Holds(Candidate(env, cfg, s, q).value, Heir(s, q, h), n)
  {
    hide BindNext, AdoptNext, RevokeTrustNext, RevokeCertificateNext, ReserveCANext, ReserveLeafNext, ReserveCrossNext;
    hide FinalizeCANext, FinalizeLeafNext, FinalizeCrossNext, BurnNext, DrainNext, Announces, Consumes;
    hide ValidSnapshot, RevokesOnly, Federates;
    if Reserves(q) {
      ReserveFacts(env, cfg, s, q);
    } else {
      match q
      case Bind => BindFacts(cfg, s);
      case Adopt(peer, target, g, call, now) => AdoptFacts(env, cfg, s, peer, target, g, call, now);
      case RevokeTrust(peer, id, g, call, now) =>
        RevokeTrustFacts(env, cfg, s, peer, id, g, call, now);
        HeldIsSound(env, s, h, n);
        RevocationMoves(env, s, Candidate(env, cfg, s, q).value, h, n);
      case RevokeCertificate(peer, c, g, call, now) =>
        RevokeCertificateFacts(env, cfg, s, peer, c, g, call, now);
        HeldIsSound(env, s, h, n);
        RevocationMoves(env, s, Candidate(env, cfg, s, q).value, h, n);
      case FinalizeCA(id, c, call, now) => FinalizeCAFacts(env, cfg, s, id, c, call, now);
      case FinalizeLeaf(id, c, call, now) => FinalizeLeafFacts(env, cfg, s, id, c, call, now);
      case FinalizeCross(id, c, e, call, now) =>
        FinalizeCrossFacts(env, cfg, s, id, c, e, call, now);
        HeldIsSound(env, s, h, n);
        if e.remote in s.federations { InUseIsNotRevoked(env, s, e.remote); }
        FederationMoves(s, Candidate(env, cfg, s, q).value, id, e.remote, h, n);
      case Burn(ids, call, now) => BurnFacts(env, cfg, s, ids, call, now);
      case Drain(d, r, pruned, now) => DrainFacts(env, s, d, r, pruned, now);
    }
  }

  /** A valid snapshot in which anything holds a serial is past its first revision. */
  lemma HeldIsSound(env: Env, s: Snapshot, h: Holder, n: nat)
    requires ValidSnapshot(env, s) && Holds(s, h, n)
    ensures s.identity.Some? && ValidLeaves(s) && ValidRevocations(env, s) && ValidFederations(env, s)
  {
    hide ValidLeaves, ValidRevocations, ValidFederations, ValidRelationships, ValidPublished, ValidOutbox;
    hide DisjointSerials, ValidCA;
  }

  // All operations together.

  /** Pending entries only go away. */
  predicate PendingShrinks(s: Snapshot, t: Snapshot) {
    t.pending.Keys <= s.pending.Keys && forall g :: g in t.pending ==> t.pending[g] == s.pending[g]
  }

  /** What holds of every operation. */
  predicate StepFacts(env: Env, cfg: Config, s: Snapshot, q: Request, t: Snapshot) {
    && t.revision == s.revision + 1
    && t.identity == (if q.Bind? then Some(cfg.identity) else s.identity)
    && (q.Bind? ==> s.revision == 0)
    && (if Reserves(q) then ReservesOnly(s, t, GrantOf(q).value)
        else t.nextSerial == s.nextSerial && PendingShrinks(s, t))
    && (Reserves(q) ==> RightlyReserved(env, cfg, s, q, t.pending[GrantOf(q).value]))
    && (s.activeCA.Some? ==> t.activeCA == s.activeCA)
    && (if GrantOf(q).Some? then Consumes(s, t, GrantOf(q).value) else t.grants == s.grants)
    && (Publishes(q) ==> Announces(env, cfg, t, q.call, q.now))
    && (q.Bind? || Reserves(q) ==> t.outbox == s.outbox)
    && (q.Drain? ==> q.item in s.outbox && t.outbox == s.outbox - {s.outbox[q.item].id})
    && (Reserves(q) || q.Drain? ==>
          t.activeCA == s.activeCA && t.certificates == s.certificates && t.revocations == s.revocations
          && t.burned == s.burned && t.federations == s.federations)
  }

  lemma CandidateFacts(env: Env, cfg: Config, s: Snapshot, q: Request)
    requires Candidate(env, cfg, s, q).Some?
    ensures StepFacts(env, cfg, s, q, Candidate(env, cfg, s, q).value)
  {
    hide BindNext, AdoptNext, RevokeTrustNext, RevokeCertificateNext, ReserveCANext, ReserveLeafNext, ReserveCrossNext;
    hide FinalizeCANext, FinalizeLeafNext, FinalizeCrossNext, BurnNext, DrainNext, Announces, Consumes;
    hide RevokesOnly, Federates, RightlyReserved;
    if Reserves(q) {
      ReserveFacts(env, cfg, s, q);
      ReservedKind(env, cfg, s, q);
    } else {
      match q
      case Bind => BindFacts(cfg, s); BindIsFirst(cfg, s);
      case Adopt(peer, target, g, call, now) => AdoptFacts(env, cfg, s, peer, target, g, call, now);
      case RevokeTrust(peer, id, g, call, now) => RevokeTrustFacts(env, cfg, s, peer, id, g, call, now);
      case RevokeCertificate(peer, c, g, call, now) => RevokeCertificateFacts(env, cfg, s, peer, c, g, call, now);
      case FinalizeCA(id, c, call, now) => FinalizeCAFacts(env, cfg, s, id, c, call, now);
      case FinalizeLeaf(id, c, call, now) => FinalizeLeafFacts(env, cfg, s, id, c, call, now);
      case FinalizeCross(id, c, e, call, now) => FinalizeCrossFacts(env, cfg, s, id, c, e, call, now);
      case Burn(ids, call, now) => BurnFacts(env, cfg, s, ids, call, now);
      case Drain(d, r, pruned, now) => DrainFacts(env, s, d, r, pruned, now);
    }
  }

  lemma BindIsFirst(cfg: Config, s: Snapshot)
    requires BindNext(cfg, s).Some?
    ensures s.revision == 0
  {
  }

  /** Every relationship comes from a grant that was used. */
  ghost predicate RelationshipsGranted(s: Snapshot) {
    forall id :: id in s.relationships ==> id.grant in s.grants
  }

  /** How often a relationship can have changed: it begins at 1, is authorized once and revoked once. */
  predicate Young(r: Relationship) {
    match r.phase
    case Provisional => r.generation == 1
    case Authorized => r.generation <= 2
    case Revoked => r.generation <= 3
  }

  ghost predicate AllYoung(s: Snapshot) {
    forall id :: id in s.relationships ==> Young(s.relationships[id])
  }

  /** No operation makes a relationship older than that. */
  lemma YoungKept(env: Env, cfg: Config, s: Snapshot, q: Request)
    requires Candidate(env, cfg, s, q).Some? && AllYoung(s)
    ensures AllYoung(Candidate(env, cfg, s, q).value)
  {
    hide AdoptNext, RevokeTrustNext;
    match q
    case Adopt(peer, target, g, call, now) =>
      AdoptRelationships(env, cfg, s, peer, target, g, call, now);
      AdoptedYoung(s, cfg.identity, peer, g, now);
    case RevokeTrust(peer, id, g, call, now) =>
      RevokeTrustRelationships(env, cfg, s, peer, id, g, call, now);
    case _ => RelationshipsKept(env, cfg, s, q);
  }

  lemma AdoptedYoung(s: Snapshot, owner: Name, peer: Peer, g: Grant, now: nat)
    requires AdoptedInto(s, owner, peer, g, now).Some? && AllYoung(s)
    ensures var rels := AdoptedInto(s, owner, peer, g, now).value; forall id :: id in rels ==> Young(rels[id])
  {
    hide Admits;
  }

  lemma AdoptedIntoKeys(s: Snapshot, owner: Name, peer: Peer, g: Grant, now: nat)
    requires AdoptedInto(s, owner, peer, g, now).Some?
    requires forall id :: id in s.relationships ==> s.relationships[id].id == id
    ensures var rels := AdoptedInto(s, owner, peer, g, now).value;
            s.relationships.Keys <= rels.Keys && forall id :: id in rels ==> id in s.relationships || id.grant == g.id
  {
    hide Admits;
  }

  lemma AdoptRelationships(env: Env, cfg: Config, s: Snapshot, peer: Peer, target: Name, g: Grant,
                           call: nat, now: nat)
    requires AdoptNext(env, cfg, s, peer, target, g, call, now).Some?
    ensures var rels := AdoptedInto(s, cfg.identity, peer, g, now);
            rels.Some? && AdoptNext(env, cfg, s, peer, target, g, call, now).value.relationships == rels.value
  {
    hide AdoptedInto, ValidGrant;
    hide Attach, Announces;
    AttachFacts(env, cfg, WithGrant(Next(s).(relationships := AdoptedInto(s, cfg.identity, peer, g, now).value),
                                    g, AdoptOp, now), call, now);
  }

  lemma ValidIDs(env: Env, s: Snapshot)
    requires ValidSnapshot(env, s)
    ensures forall id :: id in s.relationships ==> s.relationships[id].id == id
  {
    if s.revision > 0 {
      assert forall id :: id in s.relationships ==> ValidRelationship(env, s.identity.value, id, s.relationships[id]);
    }
  }

  lemma StillGranted(s: Snapshot, t: Snapshot)
    requires RelationshipsGranted(s) && t.relationships.Keys <= s.relationships.Keys && s.grants.Keys <= t.grants.Keys
    ensures RelationshipsGranted(t)
  {
  }

  lemma AdoptStaysGranted(env: Env, cfg: Config, s: Snapshot, q: Request)
    requires ValidSnapshot(env, s) && q.Adopt? && Candidate(env, cfg, s, q).Some? && RelationshipsGranted(s)
    ensures RelationshipsGranted(Candidate(env, cfg, s, q).value)
  {
    hide ValidSnapshot, AdoptNext, AdoptedInto, Announces;
    ValidIDs(env, s);
    AdoptFacts(env, cfg, s, q.peer, q.target, q.grant, q.call, q.now);
    AdoptRelationships(env, cfg, s, q.peer, q.target, q.grant, q.call, q.now);
    AdoptedIntoKeys(s, cfg.identity, q.peer, q.grant, q.now);
  }

  lemma RelationshipsKept(env: Env, cfg: Config, s: Snapshot, q: Request)
    requires Candidate(env, cfg, s, q).Some? && !q.Adopt?
    ensures Candidate(env, cfg, s, q).value.relationships.Keys == s.relationships.Keys
    ensures !q.RevokeTrust? ==> Candidate(env, cfg, s, q).value.relationships == s.relationships
  {
    hide BindNext, AdoptNext, RevokeTrustNext, RevokeCertificateNext, ReserveCANext, ReserveLeafNext, ReserveCrossNext;
    hide FinalizeCANext, FinalizeLeafNext, FinalizeCrossNext, BurnNext, DrainNext, Announces, Consumes;
    hide RevokesOnly, Federates;
    if Reserves(q) {
      ReserveFacts(env, cfg, s, q);
    } else {
      match q
      case Bind => BindFacts(cfg, s);
      case RevokeTrust(peer, id, g, call, now) => RevokeTrustRelationships(env, cfg, s, peer, id, g, call, now);
      case RevokeCertificate(peer, c, g, call, now) => RevokeCertificateFacts(env, cfg, s, peer, c, g, call, now);
      case FinalizeCA(id, c, call, now) => FinalizeCAFacts(env, cfg, s, id, c, call, now);
      case FinalizeLeaf(id, c, call, now) => FinalizeLeafFacts(env, cfg, s, id, c, call, now);
      case FinalizeCross(id, c, e, call, now) => FinalizeCrossFacts(env, cfg, s, id, c, e, call, now);
      case Burn(ids, call, now) => BurnFacts(env, cfg, s, ids, call, now);
      case Drain(d, r, pruned, now) => DrainFacts(env, s, d, r, pruned, now);
    }
  }

  lemma RelationshipsStayGranted(env: Env, cfg: Config, s: Snapshot, q: Request)
    requires ValidSnapshot(env, s) && Candidate(env, cfg, s, q).Some? && RelationshipsGranted(s)
    ensures RelationshipsGranted(Candidate(env, cfg, s, q).value)
  {
    hide Candidate, ValidSnapshot, RelationshipsGranted, Announces, ReservesOnly, PendingShrinks;
    if q.Adopt? {
      AdoptStaysGranted(env, cfg, s, q);
    } else {
      RelationshipsKept(env, cfg, s, q);
      CandidateFacts(env, cfg, s, q);
      StillGranted(s, Candidate(env, cfg, s, q).value);
    }
  }

  lemma RevokeTrustRelationships(env: Env, cfg: Config, s: Snapshot, peer: Peer, id: RelationshipID, g: Grant,
                                 call: nat, now: nat)
    requires RevokeTrustNext(env, cfg, s, peer, id, g, call, now).Some?
    ensures LiveAt(s, id)
    ensures RevokeTrustNext(env, cfg, s, peer, id, g, call, now).value.relationships ==
            RelationshipRevoked(s, id, now).relationships
  {
    hide Attach, Announces, AuthorizedAsOwner, ValidGrant;
    AttachFacts(env, cfg, WithGrant(RelationshipRevoked(Next(s), id, now), g, RevokeTrustOp, now), call, now);
  }

  /** Conservation: no operation loses a serial. */
  lemma CoverageKept(env: Env, cfg: Config, s: Snapshot, q: Request)
    requires ValidSnapshot(env, s) && CarriesSerial(s, q) && Candidate(env, cfg, s, q).Some? && CoveredSerials(s)
    ensures CoveredSerials(Candidate(env, cfg, s, q).value)
  {
    hide Candidate, ValidSnapshot, CarriesSerial;
    var t := Candidate(env, cfg, s, q).value;
    CandidateFacts(env, cfg, s, q);
    hide Announces, Consumes;
    if Reserves(q) { assert Holds(t, Reserved(GrantOf(q).value), s.nextSerial); }
    hide Holds;
    forall n: nat | 1 <= n < t.nextSerial
      ensures Held(t, n)
    {
      if n < s.nextSerial {
        assert Held(s, n);
        var h :| Holds(s, h, n);
        SerialMoves(env, cfg, s, q, h, n);
      }
    }
  }

  /** A reservation or a drain changes nothing that is public. */
  lemma ViewKept(env: Env, cfg: Config, s: Snapshot, q: Request, t: Snapshot)
    requires StepFacts(env, cfg, s, q, t) && (Reserves(q) || q.Drain?) && s.identity.Some?
    ensures SameView(s, t)
  {
    hide Announces, Consumes, ReservesOnly, PendingShrinks;
  }
}
