/** When the snapshot an operation builds is one the store accepts: exactly when there is room, and no exception
    applies. */
module TrustValidity {
  import opened Common
  import opened PublicData
  import opened TrustTypes
  import opened TrustOps
  import opened TrustSerials

  // Each part of validity depends on few fields.

  lemma SameCA(s: Snapshot, t: Snapshot)
    requires s.identity.Some? && t.identity == s.identity && t.activeCA == s.activeCA && t.bundles == s.bundles
    requires ValidCA(s)
    ensures ValidCA(t)
  {
  }

  lemma SameRelationships(env: Env, s: Snapshot, t: Snapshot)
    requires s.identity.Some? && t.identity == s.identity && t.relationships == s.relationships
    requires ValidRelationships(env, s)
    ensures ValidRelationships(env, t)
  {
    assert forall id :: LiveAt(t, id) <==> LiveAt(s, id);
    assert forall id :: LiveOwnerAt(t, id) <==> LiveOwnerAt(s, id);
    assert forall id :: AuthorizedOwnerAt(t, id) <==> AuthorizedOwnerAt(s, id);
    assert forall id :: LiveBackupAt(t, id) <==> LiveBackupAt(s, id);
  }

  lemma SameLeaves(s: Snapshot, t: Snapshot)
    requires s.identity.Some? && t.identity == s.identity && t.activeCA == s.activeCA
    requires t.certificates == s.certificates
    requires s.revocations.Keys <= t.revocations.Keys && s.relationships.Keys <= t.relationships.Keys && ValidLeaves(s)
    ensures ValidLeaves(t)
  {
    forall c | c in t.certificates
      ensures ValidLeaf(t, c, t.certificates[c])
    {
      assert ValidLeaf(s, c, s.certificates[c]);
    }
  }

  lemma SameRevocations(env: Env, s: Snapshot, t: Snapshot)
    requires t.revocations == s.revocations && t.certificates == s.certificates && t.federations == s.federations
    requires t.activeCA == s.activeCA && ValidRevocations(env, s)
    ensures ValidRevocations(env, t)
  {
    forall c | c in t.revocations
      ensures ValidRevocation(env, t, c, t.revocations[c])
    {
      assert ValidRevocation(env, s, c, s.revocations[c]);
    }
  }

  lemma SameFederations(env: Env, s: Snapshot, t: Snapshot)
    requires s.identity.Some? && t.identity == s.identity && t.activeCA == s.activeCA && t.federations == s.federations
    requires ValidFederations(env, s)
    ensures ValidFederations(env, t)
  {
    forall d | d in t.federations
      ensures ValidFederation(env, t, d, t.federations[d])
    {
      assert ValidFederation(env, s, d, s.federations[d]);
    }
  }

  lemma SameOutbox(env: Env, s: Snapshot, t: Snapshot)
    requires s.identity.Some? && t.identity == s.identity && t.revision >= s.revision && ValidOutbox(env, s)
    requires t.outbox.Keys <= s.outbox.Keys && (forall d :: d in t.outbox ==> t.outbox[d] == s.outbox[d])
    ensures ValidOutbox(env, t)
  {
    hide ValidPublication;
  }

  lemma SamePublished(env: Env, s: Snapshot, t: Snapshot)
    requires t.published == s.published && t.lastSequence == s.lastSequence && t.lastRoot == s.lastRoot
    requires ValidPublished(env, s)
    ensures ValidPublished(env, t)
  {
  }

  /** Serials stay disjoint when every holder is an heir of a former one. */
  lemma DisjointThrough(s: Snapshot, t: Snapshot, from: Holder -> Holder)
    requires DisjointSerials(s) && t.nextSerial >= s.nextSerial
    requires forall h, n: nat :: Holds(t, h, n) ==> Holds(s, from(h), n)
    requires forall h, k, n: nat :: Holds(t, h, n) && Holds(t, k, n) && from(h) == from(k) ==> h == k
    ensures DisjointSerials(t)
  {
    hide Holds;
    forall h, k, n: nat | Holds(t, h, n) && Holds(t, k, n)
      ensures h == k
    {
      assert Holds(s, from(h), n) && Holds(s, from(k), n);
    }
  }

  lemma SameSerials(s: Snapshot, t: Snapshot)
    requires DisjointSerials(s) && t.nextSerial == s.nextSerial
    requires t.activeCA == s.activeCA && t.certificates == s.certificates && t.pending == s.pending
    requires t.burned == s.burned
    requires t.federations == s.federations && t.revocations == s.revocations
    ensures DisjointSerials(t)
  {
    assert forall h, n: nat :: Holds(t, h, n) ==> Holds(s, h, n);
    DisjointThrough(s, t, h => h);
  }

  /** The new outbox holds a valid publication of the new revision. */
  lemma AnnouncedIsValid(env: Env, cfg: Config, t: Snapshot, call: nat, now: nat)
    requires Announces(env, cfg, t, call, now) && t.identity == Some(cfg.identity)
    ensures ValidOutbox(env, t)
  {
    hide View;
    NewPublicationValidates(env.rules, cfg.identity, t.revision, env.build(View(t), call).value, now);
    hide Publishable, ValidPublication;
    assert PublicationOf(env, cfg, t, call, now).value.stateRevision == t.revision;
  }

  lemma GrantedIsValid(s: Snapshot, t: Snapshot, g: Grant, op: Operation, now: nat)
    requires ValidGrants(s) && now != 0 && t.grants == s.grants[g.id := AppliedGrant(g.id, op, now)]
    ensures ValidGrants(t)
  {
  }

  /** A snapshot an opened service works on. */
  ghost predicate Base(env: Env, cfg: Config, s: Snapshot) {
    && s.version == STATE_VERSION && WithinBounds(s) && s.nextSerial != 0 && s.revision > 0
    && s.identity == Some(cfg.identity) && ValidContent(env, s)
    && RelationshipsGranted(s)
  }

  lemma BaseOf(env: Env, cfg: Config, s: Snapshot)
    requires ValidSnapshot(env, s) && s.revision > 0 && s.identity == Some(cfg.identity) && RelationshipsGranted(s)
    ensures Base(env, cfg, s)
  {
    hide ValidContent, WithinBounds, RelationshipsGranted;
  }

  // Room.

  /** The collections an operation adds to are not full. */
  predicate Room(s: Snapshot, q: Request) {
    match q
    case Bind => true
    case Adopt(_, _, g, _, _) => |s.grants| < MAX_GRANTS && (g.related.None? ==> |s.relationships| < MAX_RELATIONSHIPS)
    case RevokeTrust(_, id, _, _, _) =>
      |s.grants| < MAX_GRANTS && |s.revocations.Keys + BoundCertificates(s, id)| <= MAX_REVOCATIONS
    case RevokeCertificate(_, _, _, _, _) => |s.grants| < MAX_GRANTS && |s.revocations| < MAX_REVOCATIONS
    case ReserveCA(_, _, _) => |s.grants| < MAX_GRANTS
    case ReserveLeaf(_, _, _) => |s.grants| < MAX_GRANTS
    case ReserveCross(_, _, _, _, _) => |s.grants| < MAX_GRANTS
    case FinalizeCA(_, _, _, _) => |s.bundles| < MAX_BUNDLES
    case FinalizeLeaf(_, _, _, _) => |s.certificates| < MAX_CERTIFICATES
    case FinalizeCross(_, _, e, _, _) => CrossRoom(s, e.remote)
    case Burn(ids, _, _) => |s.burned.Keys + SerialsOf(s, ids)| <= MAX_CERTIFICATES
    case Drain(_, _, _, _) => true
  }

  predicate CrossRoom(s: Snapshot, remote: Name) {
    && (remote in s.bundles || |s.bundles| < MAX_BUNDLES)
    && (if remote in s.federations then |s.revocations| < MAX_REVOCATIONS else |s.federations| < MAX_FEDERATIONS)
  }

  lemma SizeWith<K, V>(m: map<K, V>, k: K, v: V)
    ensures |m[k := v]| == |m| + if k in m then 0 else 1
  {
    assert m[k := v].Keys == m.Keys + {k};
  }

  lemma SizeWithout<K, V>(m: map<K, V>, ks: set<K>)
    ensures |m - ks| <= |m|
  {
    assert (m - ks).Keys <= m.Keys;
    assert m.Keys == (m - ks).Keys + (m.Keys - (m - ks).Keys);
  }

  lemma SizeOfOne<K, V>(k: K, v: V)
    ensures |map[k := v]| == 1
  {
    assert map[k := v].Keys == {k};
  }

  lemma AnnouncedIsOne(env: Env, cfg: Config, t: Snapshot, call: nat, now: nat)
    requires Announces(env, cfg, t, call, now)
    ensures |t.outbox| == 1
  {
    var p := PublicationOf(env, cfg, t, call, now).value;
    SizeOfOne(p.id, p);
    hide PublicationOf;
  }

  function Used(s: Snapshot, g: Grant, op: Operation, now: nat): map<GrantID, AppliedGrant> {
    s.grants[g.id := AppliedGrant(g.id, op, now)]
  }

  // Adoption.

  lemma AdoptShape(env: Env, cfg: Config, s: Snapshot, peer: Peer, target: Name, g: Grant,
                   call: nat, now: nat)
    requires AdoptNext(env, cfg, s, peer, target, g, call, now).Some?
    ensures AdoptedInto(s, cfg.identity, peer, g, now).Some? && now != 0 && g.id !in s.grants
            && env.canonical(peer.name)
    ensures var t := AdoptNext(env, cfg, s, peer, target, g, call, now).value;
            && t == s.(revision := s.revision + 1, relationships := AdoptedInto(s, cfg.identity, peer, g, now).value,
                       grants := Used(s, g, AdoptOp, now), outbox := t.outbox)
            && Announces(env, cfg, t, call, now)
  {
    hide AdoptedInto, ValidGrant;
    hide Attach, Announces;
    AttachFacts(env, cfg, WithGrant(Next(s).(relationships := AdoptedInto(s, cfg.identity, peer, g, now).value),
                                    g, AdoptOp, now), call, now);
  }

  /** A change of relationships and grants alone. */
  lemma OnlyRelationships(env: Env, cfg: Config, s: Snapshot, t: Snapshot, g: Grant, op: Operation,
                          call: nat, now: nat)
    requires Base(env, cfg, s) && now != 0
    requires t == s.(revision := s.revision + 1, relationships := t.relationships, grants := Used(s, g, op, now),
                     outbox := t.outbox)
    requires s.relationships.Keys <= t.relationships.Keys && Announces(env, cfg, t, call, now)
    ensures ValidSnapshot(env, t) <==> WithinBounds(t) && ValidRelationships(env, t)
  {
    hide ValidCA, ValidRelationships, ValidLeaves, ValidPendings, ValidBurned, ValidRevocations;
    hide DisjointSerials, ValidFederations;
    hide ValidBundles, ValidGrants, ValidOutbox, ValidPublished, Announces, WithinBounds;
    SameCA(s, t);
    SameLeaves(s, t);
    SameRevocations(env, s, t);
    SameSerials(s, t);
    SameFederations(env, s, t);
    SamePublished(env, s, t);
    AnnouncedIsValid(env, cfg, t, call, now);
    GrantedIsValid(s, t, g, op, now);
    SameMaps(env, s, t);
  }

  lemma SameMaps(env: Env, s: Snapshot, t: Snapshot)
    ensures t.pending == s.pending && ValidPendings(env, s) ==> ValidPendings(env, t)
    ensures t.burned == s.burned && ValidBurned(s) ==> ValidBurned(t)
    ensures t.bundles == s.bundles && ValidBundles(env, s) ==> ValidBundles(env, t)
    ensures t.grants == s.grants && ValidGrants(s) ==> ValidGrants(t)
  {
    hide ValidPending, ValidBundle;
  }

  /** Turning a provisional relationship into an authorized one fails only at the end of its counter or of a clock that
      went back. */
  predicate UpgradeOk(s: Snapshot, g: Grant, now: nat) {
    g.related.Some? && g.related.value in s.relationships ==>
      s.relationships[g.related.value].generation < MAX_UINT64 && now >= s.relationships[g.related.value].establishedAt
  }

  lemma UpgradeIsValid(env: Env, s: Snapshot, t: Snapshot, id: RelationshipID, now: nat)
    requires s.identity.Some? && t.identity == s.identity && ValidRelationships(env, s) && id in s.relationships
    requires var r := s.relationships[id];
             r.phase == Provisional
             && t.relationships ==
                  s.relationships[id := r.(phase := Authorized, generation := Bump(r.generation), updatedAt := now)]
    ensures ValidRelationships(env, t) <==>
            s.relationships[id].generation < MAX_UINT64 && now >= s.relationships[id].establishedAt
  {
    assert forall k :: LiveAt(t, k) <==> LiveAt(s, k);
    assert forall k :: LiveOwnerAt(t, k) <==> LiveOwnerAt(s, k);
    assert forall k :: AuthorizedOwnerAt(s, k) ==> AuthorizedOwnerAt(t, k);
    assert forall k :: LiveBackupAt(t, k) <==> LiveBackupAt(s, k);
    assert ValidRelationship(env, s.identity.value, id, s.relationships[id]);
    assert OnePerPrincipal(t) && OneOwner(t) && BackupsHaveOwner(t) by { hide ValidRelationship; }
    assert forall k :: k in s.relationships && k != id ==> t.relationships[k] == s.relationships[k];
    assert ValidRelationships(env, t) ==> ValidRelationship(env, t.identity.value, id, t.relationships[id]);
  }

  lemma NewcomerIsValid(env: Env, s: Snapshot, t: Snapshot, id: RelationshipID, r: Relationship, peer: Peer, g: Grant)
    requires s.identity.Some? && t.identity == s.identity && ValidRelationships(env, s)
    requires g.role.Some? && g.phase.Some? && g.phase.value != Revoked && Admits(s, peer, g)
    requires id !in s.relationships && t.relationships == s.relationships[id := r]
    requires ValidRelationship(env, s.identity.value, id, r)
    requires r.principal == peer.name && r.role == g.role.value && r.phase == g.phase.value
    ensures ValidRelationships(env, t)
  {
    hide ValidRelationship;
    assert forall k :: k != id ==> (LiveAt(t, k) <==> LiveAt(s, k));
    assert forall k :: k != id ==> (LiveOwnerAt(t, k) <==> LiveOwnerAt(s, k));
    assert forall k :: k != id ==> (AuthorizedOwnerAt(t, k) <==> AuthorizedOwnerAt(s, k));
    assert forall k :: k != id ==> (LiveBackupAt(t, k) <==> LiveBackupAt(s, k));
  }

  lemma AdoptBounds(env: Env, cfg: Config, s: Snapshot, t: Snapshot, q: Request)
    requires q.Adopt? && WithinBounds(s) && q.grant.id !in s.grants && Announces(env, cfg, t, q.call, q.now)
    requires t == s.(revision := s.revision + 1, relationships := t.relationships,
                     grants := Used(s, q.grant, AdoptOp, q.now), outbox := t.outbox)
    requires |t.relationships| == |s.relationships| + if q.grant.related.None? then 1 else 0
    ensures WithinBounds(t) <==> Room(s, q)
  {
    hide Announces;
    SizeWith(s.grants, q.grant.id, AppliedGrant(q.grant.id, AdoptOp, q.now));
    AnnouncedIsOne(env, cfg, t, q.call, q.now);
  }

  /** The relationships after an adoption: what they are, and when they are valid. */
  lemma AdoptedIntoValid(env: Env, cfg: Config, s: Snapshot, t: Snapshot, peer: Peer, g: Grant, now: nat)
    requires s.identity == Some(cfg.identity) && t.identity == s.identity && ValidRelationships(env, s)
    requires RelationshipsGranted(s)
    requires AdoptedInto(s, cfg.identity, peer, g, now) == Some(t.relationships) && now != 0 && g.id !in s.grants
    requires env.canonical(peer.name)
    ensures ValidRelationships(env, t) <==> UpgradeOk(s, g, now)
    ensures |t.relationships| == |s.relationships| + if g.related.None? then 1 else 0
    ensures s.relationships.Keys <= t.relationships.Keys
  {
    hide ValidRelationships, Admits;
    if g.related.Some? {
      var id := g.related.value;
      assert s.relationships[id].id == id by { RelationshipIDs(env, s, id); }
      UpgradeIsValid(env, s, t, id, now);
      SizeWith(s.relationships, id, t.relationships[id]);
    } else {
      var id := RelationshipID(g.id, cfg.identity, peer.name);
      assert id !in s.relationships;
      NewcomerIsValid(env, s, t, id, t.relationships[id], peer, g);
      SizeWith(s.relationships, id, t.relationships[id]);
    }
  }

  lemma RelationshipIDs(env: Env, s: Snapshot, id: RelationshipID)
    requires s.identity.Some? && ValidRelationships(env, s) && id in s.relationships
    ensures s.relationships[id].id == id
  {
    assert ValidRelationship(env, s.identity.value, id, s.relationships[id]);
  }

  lemma AdoptValid(env: Env, cfg: Config, s: Snapshot, q: Request)
    requires Base(env, cfg, s) && q.Adopt? && Candidate(env, cfg, s, q).Some?
    ensures ValidSnapshot(env, Candidate(env, cfg, s, q).value) <==> Room(s, q) && UpgradeOk(s, q.grant, q.now)
  {
    hide ValidCA, ValidRelationships, ValidLeaves, ValidPendings, ValidBurned, ValidRevocations;
    hide DisjointSerials, ValidFederations;
    hide ValidBundles, ValidGrants, ValidOutbox, ValidPublished, Announces, WithinBounds, AdoptNext;
    hide AdoptedInto, RelationshipsGranted;
    hide ValidSnapshot, Room, UpgradeOk;
    var t := Candidate(env, cfg, s, q).value;
    AdoptShape(env, cfg, s, q.peer, q.target, q.grant, q.call, q.now);
    AdoptedIntoValid(env, cfg, s, t, q.peer, q.grant, q.now);
    AdoptBounds(env, cfg, s, t, q);
    OnlyRelationships(env, cfg, s, t, q.grant, AdoptOp, q.call, q.now);
  }

  // Revoking.

  /** Some live backup administrator depends on this relationship: it is the authorized owner's. */
  predicate Depended(s: Snapshot, id: RelationshipID) {
    AuthorizedOwnerAt(s, id) && exists b :: b in s.relationships && LiveBackupAt(s, b)
  }

  /** Revoking fails at the end of the counter, with a clock that went back, and for an owner backups depend on. */
  predicate RevocationOk(s: Snapshot, id: RelationshipID, now: nat) {
    id in s.relationships ==>
      && s.relationships[id].generation < MAX_UINT64
      && now >= s.relationships[id].establishedAt
      && !Depended(s, id)
  }

  lemma RevokedRelationships(env: Env, s: Snapshot, t: Snapshot, id: RelationshipID, now: nat)
    requires s.identity.Some? && t.identity == s.identity && ValidRelationships(env, s) && LiveAt(s, id)
    requires var r := s.relationships[id];
             t.relationships ==
             s.relationships[id := r.(phase := Revoked, generation := Bump(r.generation), updatedAt := now)]
    ensures ValidRelationships(env, t) <==> RevocationOk(s, id, now)
  {
    assert ValidRelationship(env, s.identity.value, id, s.relationships[id]);
    assert !LiveAt(t, id);
    assert forall k :: k != id ==> (LiveAt(t, k) <==> LiveAt(s, k));
    assert forall k :: k != id ==> (LiveOwnerAt(t, k) <==> LiveOwnerAt(s, k));
    assert forall k :: k != id ==> (AuthorizedOwnerAt(t, k) <==> AuthorizedOwnerAt(s, k));
    assert forall k :: k != id ==> (LiveBackupAt(t, k) <==> LiveBackupAt(s, k));
    assert OnePerPrincipal(t) && OneOwner(t) by { hide ValidRelationship; }
    assert BackupsHaveOwner(t) <==> !Depended(s, id) by { hide ValidRelationship; OwnersAfter(s, t, id); }
    assert forall k :: k in s.relationships && k != id ==> t.relationships[k] == s.relationships[k];
    assert ValidRelationships(env, t) ==> ValidRelationship(env, t.identity.value, id, t.relationships[id]);
  }

  lemma OwnersAfter(s: Snapshot, t: Snapshot, id: RelationshipID)
    requires OneOwner(s) && BackupsHaveOwner(s) && !LiveAt(t, id) && LiveAt(s, id)
    requires forall k :: k != id ==> (AuthorizedOwnerAt(t, k) <==> AuthorizedOwnerAt(s, k))
    requires forall k :: k != id ==> (LiveBackupAt(t, k) <==> LiveBackupAt(s, k))
    ensures BackupsHaveOwner(t) <==> !Depended(s, id)
  {
    if Depended(s, id) {
      var b :| b in s.relationships && LiveBackupAt(s, b);
      assert b != id && LiveBackupAt(t, b);
      forall o
        ensures !AuthorizedOwnerAt(t, o)
      {
        assert AuthorizedOwnerAt(s, o) ==> LiveOwnerAt(s, o) && LiveOwnerAt(s, id);
      }
    } else {
      forall b | LiveBackupAt(t, b)
        ensures exists o :: AuthorizedOwnerAt(t, o)
      {
        assert LiveBackupAt(s, b);
        var o :| AuthorizedOwnerAt(s, o);
        assert o != id;
        assert AuthorizedOwnerAt(t, o);
      }
    }
  }

  /** These certificates, not revoked before, are revoked now. */
  ghost predicate Revokes(s: Snapshot, t: Snapshot, cs: set<Certificate>, now: nat) {
    && cs <= s.certificates.Keys && (forall c :: c in cs ==> !s.certificates[c].revoked)
    && t.certificates.Keys == s.certificates.Keys
    && (forall c :: c in s.certificates ==>
          t.certificates[c] == if c in cs then s.certificates[c].(revoked := true, revokedAt := now)
                               else s.certificates[c])
    && t.revocations.Keys == s.revocations.Keys + cs
    && (forall c :: c in cs ==>
          t.revocations[c] == Revocation(s.certificates[c].certificate, s.certificates[c].serial, LeafKind, now))
    && (forall c :: c in s.revocations && c !in cs ==> t.revocations[c] == s.revocations[c])
  }

  lemma RevokedLeaves(s: Snapshot, t: Snapshot, cs: set<Certificate>, now: nat)
    requires s.identity.Some? && t.identity == s.identity && t.activeCA == s.activeCA
    requires t.relationships.Keys == s.relationships.Keys
    requires Revokes(s, t, cs, now) && now != 0 && ValidLeaves(s)
    ensures ValidLeaves(t)
  {
    forall c | c in t.certificates
      ensures ValidLeaf(t, c, t.certificates[c])
    {
      assert ValidLeaf(s, c, s.certificates[c]);
    }
  }

  lemma RevokedRevocations(env: Env, s: Snapshot, t: Snapshot, cs: set<Certificate>, now: nat)
    requires s.identity.Some? && t.activeCA == s.activeCA && t.federations == s.federations
    requires Revokes(s, t, cs, now) && now != 0 && ValidLeaves(s) && ValidRevocations(env, s)
    ensures ValidRevocations(env, t)
  {
    forall c | c in t.revocations
      ensures ValidRevocation(env, t, c, t.revocations[c])
    {
      if c in cs {
        assert ValidLeaf(s, c, s.certificates[c]);
      } else {
        assert ValidRevocation(env, s, c, s.revocations[c]);
      }
    }
  }

  lemma RevokedSerials(s: Snapshot, t: Snapshot, cs: set<Certificate>, now: nat)
    requires Revokes(s, t, cs, now) && DisjointSerials(s) && t.nextSerial == s.nextSerial
    requires t.activeCA == s.activeCA && t.federations == s.federations && t.pending == s.pending
    requires t.burned == s.burned
    ensures DisjointSerials(t)
  {
    assert forall h, n: nat :: Holds(t, h, n) ==> Holds(s, h, n);
    DisjointThrough(s, t, h => h);
  }

  /** A change of relationships, certificates and grants by a revocation. */
  lemma OnlyRevocations(env: Env, cfg: Config, s: Snapshot, t: Snapshot, cs: set<Certificate>, g: Grant, op: Operation,
                        call: nat, now: nat)
    requires Base(env, cfg, s) && now != 0 && Revokes(s, t, cs, now)
    requires t == s.(revision := s.revision + 1, relationships := t.relationships, certificates := t.certificates,
                     revocations := t.revocations, grants := Used(s, g, op, now), outbox := t.outbox)
    requires s.relationships.Keys == t.relationships.Keys && Announces(env, cfg, t, call, now)
    ensures ValidSnapshot(env, t) <==> WithinBounds(t) && ValidRelationships(env, t)
  {
    hide ValidCA, ValidRelationships, ValidLeaves, ValidPendings, ValidBurned, ValidRevocations;
    hide DisjointSerials, ValidFederations;
    hide ValidBundles, ValidGrants, ValidOutbox, ValidPublished, Announces, WithinBounds, Revokes;
    SameCA(s, t);
    RevokedLeaves(s, t, cs, now);
    RevokedRevocations(env, s, t, cs, now);
    RevokedSerials(s, t, cs, now);
    SameFederations(env, s, t);
    SamePublished(env, s, t);
    AnnouncedIsValid(env, cfg, t, call, now);
    GrantedIsValid(s, t, g, op, now);
    SameMaps(env, s, t);
  }

  lemma RevocationBounds(env: Env, cfg: Config, s: Snapshot, t: Snapshot, cs: set<Certificate>, g: Grant, op: Operation,
                         call: nat, now: nat)
    requires WithinBounds(s) && g.id !in s.grants && Revokes(s, t, cs, now) && Announces(env, cfg, t, call, now)
    requires t == s.(revision := s.revision + 1, relationships := t.relationships, certificates := t.certificates,
                     revocations := t.revocations, grants := Used(s, g, op, now), outbox := t.outbox)
    requires s.relationships.Keys == t.relationships.Keys
    ensures WithinBounds(t) <==> |s.grants| < MAX_GRANTS && |s.revocations.Keys + cs| <= MAX_REVOCATIONS
  {
    hide Announces;
    SizeWith(s.grants, g.id, AppliedGrant(g.id, op, now));
    AnnouncedIsOne(env, cfg, t, call, now);
    assert |t.relationships| == |t.relationships.Keys| && |s.relationships| == |s.relationships.Keys|;
    assert |t.certificates| == |t.certificates.Keys| && |s.certificates| == |s.certificates.Keys|;
    assert |t.revocations| == |t.revocations.Keys|;
  }

  lemma RelationshipRevokedRevokes(s: Snapshot, t: Snapshot, id: RelationshipID, now: nat)
    requires id in s.relationships
    requires t.certificates == RelationshipRevoked(Next(s), id, now).certificates
    requires t.revocations == RelationshipRevoked(Next(s), id, now).revocations
    ensures Revokes(s, t, BoundCertificates(s, id), now)
  {
  }

  lemma LeafRevokedRevokes(s: Snapshot, t: Snapshot, c: Certificate, now: nat)
    requires c in s.certificates && !s.certificates[c].revoked
    requires t.certificates == LeafRevoked(Next(s), c, now).certificates
    requires t.revocations == LeafRevoked(Next(s), c, now).revocations
    ensures Revokes(s, t, {c}, now)
  {
  }

  lemma RevokeTrustShape(env: Env, cfg: Config, s: Snapshot, q: Request)
    requires q.RevokeTrust? && Candidate(env, cfg, s, q).Some?
    ensures LiveAt(s, q.relationship) && q.now != 0 && q.grant.id !in s.grants
    ensures var t := Candidate(env, cfg, s, q).value;
            var r := s.relationships[q.relationship];
            && t == s.(revision := s.revision + 1, relationships := t.relationships, certificates := t.certificates,
                       revocations := t.revocations, grants := Used(s, q.grant, RevokeTrustOp, q.now),
                       outbox := t.outbox)
            && t.relationships ==
                 s.relationships[q.relationship := r.(phase := Revoked, generation := Bump(r.generation),
                                                      updatedAt := q.now)]
            && Revokes(s, t, BoundCertificates(s, q.relationship), q.now)
            && Announces(env, cfg, t, q.call, q.now)
  {
    hide AuthorizedAsOwner, ValidGrant, Revokes, BoundCertificates, BoundTo;
    hide Attach, Announces;
    AttachFacts(env, cfg, WithGrant(RelationshipRevoked(Next(s), q.relationship, q.now), q.grant, RevokeTrustOp,
                                    q.now), q.call, q.now);
    var t := Candidate(env, cfg, s, q).value;
    RelationshipRevokedRevokes(s, t, q.relationship, q.now);
  }

  /** Revoking a relationship gives a valid snapshot exactly when there is room and no exception applies. */
  lemma RevokeTrustValid(env: Env, cfg: Config, s: Snapshot, q: Request)
    requires Base(env, cfg, s) && q.RevokeTrust? && Candidate(env, cfg, s, q).Some?
    ensures ValidSnapshot(env, Candidate(env, cfg, s, q).value) <==>
            Room(s, q) && RevocationOk(s, q.relationship, q.now)
  {
    hide ValidCA, ValidRelationships, ValidLeaves, ValidPendings, ValidBurned, ValidRevocations;
    hide DisjointSerials, ValidFederations;
    hide ValidBundles, ValidGrants, ValidOutbox, ValidPublished, Announces, WithinBounds, RevokeTrustNext;
    hide RelationshipsGranted;
    hide ValidSnapshot, RevocationOk, Revokes, Candidate, BoundCertificates, Bump;
    var t := Candidate(env, cfg, s, q).value;
    var cs := BoundCertificates(s, q.relationship);
    RevokeTrustShape(env, cfg, s, q);
    RevokedRelationships(env, s, t, q.relationship, q.now);
    RevocationBounds(env, cfg, s, t, cs, q.grant, RevokeTrustOp, q.call, q.now);
    OnlyRevocations(env, cfg, s, t, cs, q.grant, RevokeTrustOp, q.call, q.now);
  }

  lemma RevokeCertificateShape(env: Env, cfg: Config, s: Snapshot, q: Request)
    requires q.RevokeCertificate? && Candidate(env, cfg, s, q).Some?
    ensures q.now != 0 && q.grant.id !in s.grants && q.certificate in s.certificates
    ensures !s.certificates[q.certificate].revoked
    ensures var t := Candidate(env, cfg, s, q).value;
            && t == s.(revision := s.revision + 1, certificates := t.certificates,
                       revocations := t.revocations, grants := Used(s, q.grant, RevokeCertificateOp, q.now),
                       outbox := t.outbox)
            && Revokes(s, t, {q.certificate}, q.now)
            && Announces(env, cfg, t, q.call, q.now)
  {
    hide AuthorizedAsOwner, ValidGrant;
    hide Revokes;
    hide Attach, Announces;
    AttachFacts(env, cfg, WithGrant(LeafRevoked(Next(s), q.certificate, q.now), q.grant, RevokeCertificateOp,
                                    q.now), q.call, q.now);
    LeafRevokedRevokes(s, Candidate(env, cfg, s, q).value, q.certificate, q.now);
  }

  lemma ActiveIsNotListed(env: Env, s: Snapshot, c: Certificate)
    requires ValidRevocations(env, s) && c in s.certificates && !s.certificates[c].revoked
    ensures c !in s.revocations
  {
    hide ValidRevocations;
    if c in s.revocations { RevokedKind(env, s, c); }
  }

  lemma RevokeCertificateValid(env: Env, cfg: Config, s: Snapshot, q: Request)
    requires Base(env, cfg, s) && q.RevokeCertificate? && Candidate(env, cfg, s, q).Some?
    ensures ValidSnapshot(env, Candidate(env, cfg, s, q).value) <==> Room(s, q)
  {
    hide ValidCA, ValidRelationships, ValidLeaves, ValidPendings, ValidBurned, ValidRevocations;
    hide DisjointSerials, ValidFederations;
    hide ValidBundles, ValidGrants, ValidOutbox, ValidPublished, Announces, WithinBounds, RelationshipsGranted;
    hide ValidSnapshot, Revokes, Candidate;
    var t := Candidate(env, cfg, s, q).value;
    RevokeCertificateShape(env, cfg, s, q);
    ActiveIsNotListed(env, s, q.certificate);
    assert |s.revocations.Keys + {q.certificate}| == |s.revocations| + 1;
    SameRelationships(env, s, t);
    RevocationBounds(env, cfg, s, t, {q.certificate}, q.grant, RevokeCertificateOp, q.call, q.now);
    OnlyRevocations(env, cfg, s, t, {q.certificate}, q.grant, RevokeCertificateOp, q.call, q.now);
  }

  // Reserving.

  lemma ReservedSerials(s: Snapshot, t: Snapshot, g: GrantID)
    requires DisjointSerials(s) && ReservesOnly(s, t, g)
    ensures DisjointSerials(t)
  {
    hide Consumes;
    forall h, n: nat | Holds(t, h, n)
      ensures if h == Reserved(g) then n == s.nextSerial else Holds(s, h, n)
    {
    }
    hide Holds;
  }

  lemma ReservedPending(env: Env, cfg: Config, s: Snapshot, q: Request)
    requires Reserves(q) && Candidate(env, cfg, s, q).Some? && s.nextSerial != 0 && ValidGrants(s)
    ensures ValidPendings(env, Candidate(env, cfg, s, q).value) && ValidGrants(Candidate(env, cfg, s, q).value)
  {
    hide BindNext, AdoptNext, RevokeTrustNext, RevokeCertificateNext, FinalizeCANext, FinalizeLeafNext;
    hide FinalizeCrossNext, BurnNext, DrainNext;
    hide MayFederate, ValidGrant;
  }

  lemma ReserveBounds(s: Snapshot, t: Snapshot, g: GrantID)
    requires WithinBounds(s) && ReservesOnly(s, t, g)
    ensures WithinBounds(t) <==> |s.grants| < MAX_GRANTS
  {
    SizeOfOne(g, t.pending[g]);
    assert |t.grants| == |t.grants.Keys| && |s.grants| == |s.grants.Keys|;
  }

  lemma ReserveValid(env: Env, cfg: Config, s: Snapshot, q: Request)
    requires Base(env, cfg, s) && Reserves(q) && Candidate(env, cfg, s, q).Some?
    ensures ValidSnapshot(env, Candidate(env, cfg, s, q).value) <==> Room(s, q)
  {
    hide ValidCA, ValidRelationships, ValidLeaves, ValidPendings, ValidBurned, ValidRevocations;
    hide DisjointSerials, ValidFederations;
    hide ValidBundles, ValidGrants, ValidOutbox, ValidPublished, WithinBounds, RelationshipsGranted, Candidate;
    hide Consumes;
    var t := Candidate(env, cfg, s, q).value;
    ReserveFacts(env, cfg, s, q);
    ReserveBounds(s, t, GrantOf(q).value);
    ReservedSerials(s, t, GrantOf(q).value);
    ReservedPending(env, cfg, s, q);
    hide ReservesOnly;
    assert t == s.(revision := s.revision + 1, nextSerial := s.nextSerial + 1, pending := t.pending,
                   grants := t.grants) by { ReservedShape(s, t, GrantOf(q).value); }
    SameCA(s, t);
    SameRelationships(env, s, t);
    SameLeaves(s, t);
    SameRevocations(env, s, t);
    SameFederations(env, s, t);
    SamePublished(env, s, t);
    SameOutbox(env, s, t);
    SameMaps(env, s, t);
  }

  lemma ReservedShape(s: Snapshot, t: Snapshot, g: GrantID)
    requires ReservesOnly(s, t, g)
    ensures t ==
            s.(revision := s.revision + 1, nextSerial := s.nextSerial + 1, pending := t.pending, grants := t.grants)
  {
    hide Consumes;
  }

  // Burning.

  lemma BurnedSerials(s: Snapshot, t: Snapshot, ids: set<GrantID>)
    requires DisjointSerials(s) && t.nextSerial == s.nextSerial
    requires t.pending == s.pending - ids && t.burned.Keys == s.burned.Keys + SerialsOf(s, ids)
    requires t.activeCA == s.activeCA && t.certificates == s.certificates && t.federations == s.federations
    requires t.revocations == s.revocations
    ensures DisjointSerials(t)
  {
    forall h, n: nat | Holds(t, h, n)
      ensures Held(s, n)
    {
      if h.Burned? && n !in s.burned {
        var g :| g in ids && g in s.pending && s.pending[g].serial == n;
        assert Holds(s, Reserved(g), n);
      } else {
        assert Holds(s, h, n);
      }
    }
    forall h, k, n: nat | Holds(t, h, n) && Holds(t, k, n)
      ensures h == k
    {
      BurnedOnce(s, t, ids, h, k, n);
    }
  }

  lemma BurnedOnce(s: Snapshot, t: Snapshot, ids: set<GrantID>, h: Holder, k: Holder, n: nat)
    requires DisjointSerials(s)
    requires t.pending == s.pending - ids && t.burned.Keys == s.burned.Keys + SerialsOf(s, ids)
    requires t.activeCA == s.activeCA && t.certificates == s.certificates && t.federations == s.federations
    requires t.revocations == s.revocations
    requires Holds(t, h, n) && Holds(t, k, n)
    ensures h == k
  {
    if h.Burned? && k.Burned? {
    } else if h.Burned? && n !in s.burned {
      var g :| g in ids && g in s.pending && s.pending[g].serial == n;
      assert Holds(s, Reserved(g), n) && Holds(s, k, n);
    } else if k.Burned? && n !in s.burned {
      var g :| g in ids && g in s.pending && s.pending[g].serial == n;
      assert Holds(s, Reserved(g), n) && Holds(s, h, n);
    } else {
      assert Holds(s, h, n) && Holds(s, k, n);
    }
  }

  /** Exactly these serials are burned now. */
  predicate BurnsAt(s: Snapshot, t: Snapshot, serials: set<nat>, now: nat) {
    && t.burned.Keys == s.burned.Keys + serials
    && (forall n :: n in t.burned ==> t.burned[n] == if n in serials then now else s.burned[n])
  }

  lemma BurnShape(env: Env, cfg: Config, s: Snapshot, q: Request)
    requires q.Burn? && Candidate(env, cfg, s, q).Some?
    ensures var t := Candidate(env, cfg, s, q).value;
            && t == s.(revision := s.revision + 1, pending := s.pending - q.ids, burned := t.burned, outbox := t.outbox)
            && BurnsAt(s, t, SerialsOf(s, q.ids), q.now)
            && q.now != 0 && Announces(env, cfg, t, q.call, q.now)
  {
    hide Attach, Announces;
    AttachFacts(env, cfg, SerialsBurned(Next(s), q.ids, q.now), q.call, q.now);
  }

  lemma BurnedParts(env: Env, s: Snapshot, t: Snapshot, ids: set<GrantID>, now: nat)
    requires ValidPendings(env, s) && ValidBurned(s) && now != 0
    requires t.pending == s.pending - ids && BurnsAt(s, t, SerialsOf(s, ids), now)
    ensures ValidPendings(env, t) && ValidBurned(t) && t.burned.Keys == s.burned.Keys + SerialsOf(s, ids)
  {
    assert forall g :: g in s.pending ==> ValidPending(env, g, s.pending[g]);
  }

  lemma BurnBounds(env: Env, cfg: Config, s: Snapshot, t: Snapshot, ids: set<GrantID>, call: nat,
                   now: nat)
    requires WithinBounds(s) && Announces(env, cfg, t, call, now)
    requires t == s.(revision := s.revision + 1, pending := s.pending - ids, burned := t.burned, outbox := t.outbox)
    requires t.burned.Keys == s.burned.Keys + SerialsOf(s, ids)
    ensures WithinBounds(t) <==> |s.burned.Keys + SerialsOf(s, ids)| <= MAX_CERTIFICATES
  {
    hide Announces;
    SizeWithout(s.pending, ids);
    AnnouncedIsOne(env, cfg, t, call, now);
    assert |t.burned| == |t.burned.Keys|;
  }

  lemma BurnResult(env: Env, cfg: Config, s: Snapshot, q: Request)
    requires ValidPendings(env, s) && ValidBurned(s) && q.Burn? && Candidate(env, cfg, s, q).Some?
    ensures var t := Candidate(env, cfg, s, q).value;
            && t == s.(revision := s.revision + 1, pending := s.pending - q.ids, burned := t.burned, outbox := t.outbox)
            && t.burned.Keys == s.burned.Keys + SerialsOf(s, q.ids)
            && Announces(env, cfg, t, q.call, q.now)
            && ValidPendings(env, t) && ValidBurned(t)
  {
    hide Candidate, Announces, ValidPendings, ValidBurned;
    BurnShape(env, cfg, s, q);
    BurnedParts(env, s, Candidate(env, cfg, s, q).value, q.ids, q.now);
  }

  lemma OnlyBurned(env: Env, cfg: Config, s: Snapshot, t: Snapshot, call: nat, now: nat)
    requires Base(env, cfg, s) && Announces(env, cfg, t, call, now)
    requires t == s.(revision := s.revision + 1, pending := t.pending, burned := t.burned, outbox := t.outbox)
    requires ValidPendings(env, t) && ValidBurned(t) && DisjointSerials(t)
    ensures ValidSnapshot(env, t) <==> WithinBounds(t)
  {
    hide ValidCA, ValidRelationships, ValidLeaves, ValidPendings, ValidBurned, ValidRevocations;
    hide DisjointSerials, ValidFederations;
    hide ValidBundles, ValidGrants, ValidOutbox, ValidPublished, WithinBounds, RelationshipsGranted, Announces;
    SameCA(s, t);
    SameRelationships(env, s, t);
    SameLeaves(s, t);
    SameRevocations(env, s, t);
    SameFederations(env, s, t);
    SamePublished(env, s, t);
    AnnouncedIsValid(env, cfg, t, call, now);
    SameMaps(env, s, t);
  }

  lemma BurnValid(env: Env, cfg: Config, s: Snapshot, q: Request)
    requires Base(env, cfg, s) && q.Burn? && Candidate(env, cfg, s, q).Some?
    ensures ValidSnapshot(env, Candidate(env, cfg, s, q).value) <==> Room(s, q)
  {
    hide ValidPendings, ValidBurned, DisjointSerials, ValidCA, ValidRelationships, ValidLeaves;
    hide ValidRevocations, ValidFederations;
    hide ValidBundles, ValidGrants, ValidOutbox, ValidPublished, WithinBounds, Candidate, Announces, SerialsOf;
    hide ValidSnapshot;
    var t := Candidate(env, cfg, s, q).value;
    BurnResult(env, cfg, s, q);
    BurnBounds(env, cfg, s, t, q.ids, q.call, q.now);
    BurnedSerials(s, t, q.ids);
    OnlyBurned(env, cfg, s, t, q.call, q.now);
  }

  // Completing a certificate.

  /** An encoded certificate the collections accept. */
  predicate FitsDER(c: Certificate) {
    0 < c.size <= MAX_DER
  }

  /** A moved reservation: the serial passes to one new holder, and nothing else moves. */
  ghost predicate Passes(s: Snapshot, t: Snapshot, id: GrantID, heir: Holder) {
    && t.nextSerial == s.nextSerial && id in s.pending && heir != Reserved(id)
    && (forall n: nat :: !Holds(s, heir, n))
    && (forall h, n: nat :: Holds(t, h, n) ==>
          if h == heir then n == s.pending[id].serial else h != Reserved(id) && Holds(s, h, n))
  }

  lemma PassedSerials(s: Snapshot, t: Snapshot, id: GrantID, heir: Holder)
    requires DisjointSerials(s) && Passes(s, t, id, heir)
    ensures DisjointSerials(t)
  {
    assert Holds(s, Reserved(id), s.pending[id].serial);
    hide Holds;
    forall h, k, n: nat | Holds(t, h, n) && Holds(t, k, n)
      ensures h == k
    {
      assert h == heir || Holds(s, h, n);
      assert k == heir || Holds(s, k, n);
    }
    forall h, n: nat | Holds(t, h, n)
      ensures n < t.nextSerial
    {
      assert h == heir || Holds(s, h, n);
    }
  }

  lemma FewerPending(env: Env, s: Snapshot, t: Snapshot, id: GrantID)
    requires ValidPendings(env, s) && t.pending == s.pending - {id}
    ensures ValidPendings(env, t)
  {
    assert forall g :: g in s.pending ==> ValidPending(env, g, s.pending[g]);
  }

  // The authority.

  lemma FinalizeCAShape(env: Env, cfg: Config, s: Snapshot, q: Request)
    requires q.FinalizeCA? && Candidate(env, cfg, s, q).Some?
    ensures q.id in s.pending && s.activeCA.None? && q.now != 0
    ensures var t := Candidate(env, cfg, s, q).value;
            && t == s.(revision := s.revision + 1, pending := s.pending - {q.id}, activeCA := Some(q.certificate),
                       bundles := s.bundles[cfg.identity := Bundle(cfg.identity, 1, [q.certificate], q.now)],
                       outbox := t.outbox)
            && Announces(env, cfg, t, q.call, q.now)
  {
    hide Attach, Announces;
    AttachFacts(env, cfg, CAInstalled(Unreserved(Next(s), {q.id}), cfg.identity, q.certificate, q.now), q.call, q.now);
  }

  /** Before there is an authority there is nothing it signed. */
  lemma NothingSignedYet(env: Env, s: Snapshot)
    requires s.identity.Some? && s.activeCA.None? && ValidLeaves(s) && ValidRevocations(env, s)
    requires ValidFederations(env, s)
    ensures s.certificates == map[] && s.revocations == map[] && s.federations == map[]
  {
    assert s.certificates.Keys == {} && s.federations.Keys == {} && s.revocations.Keys == {};
  }

  lemma InstalledCA(env: Env, cfg: Config, s: Snapshot, t: Snapshot, q: Request)
    requires q.FinalizeCA? && s.identity == Some(cfg.identity) && t.identity == s.identity
    requires env.canonical(cfg.identity) && q.now != 0
    requires t.activeCA == Some(q.certificate)
    requires t.bundles == s.bundles[cfg.identity := Bundle(cfg.identity, 1, [q.certificate], q.now)]
    requires ValidBundles(env, s) && q.certificate.serial > 0
    requires q.certificate.isCA && q.certificate.certSign && q.certificate.subject == cfg.identity
    requires SignedBy(q.certificate, q.certificate)
    ensures ValidCA(t) <==> FitsDER(q.certificate)
    ensures FitsDER(q.certificate) ==> ValidBundles(env, t)
  {
    assert forall d :: d in s.bundles ==> ValidBundle(env, d, s.bundles[d]);
  }

  lemma CAPasses(s: Snapshot, t: Snapshot, q: Request)
    requires q.FinalizeCA? && q.id in s.pending && s.activeCA.None? && q.certificate.serial == s.pending[q.id].serial
    requires t.activeCA == Some(q.certificate) && t.pending == s.pending - {q.id} && t.nextSerial == s.nextSerial
    requires t.certificates == s.certificates && t.revocations == s.revocations
    requires t.federations == s.federations && t.burned == s.burned
    ensures Passes(s, t, q.id, TheCA)
  {
  }

  lemma FinalizeCARest(env: Env, cfg: Config, s: Snapshot, t: Snapshot, q: Request)
    requires Base(env, cfg, s) && q.FinalizeCA? && q.now != 0 && q.id in s.pending && s.activeCA.None?
    requires Announces(env, cfg, t, q.call, q.now) && q.certificate.serial == s.pending[q.id].serial
    requires t == s.(revision := s.revision + 1, pending := s.pending - {q.id}, activeCA := Some(q.certificate),
                     bundles := t.bundles, outbox := t.outbox)
    ensures ValidSnapshot(env, t) <==> WithinBounds(t) && ValidCA(t) && ValidBundles(env, t)
  {
    hide ValidCA, ValidRelationships, ValidPendings, ValidBurned, DisjointSerials;
    hide ValidBundles, ValidGrants, ValidOutbox, ValidPublished, WithinBounds, RelationshipsGranted, Announces;
    NothingSignedYet(env, s);
    assert ValidLeaves(t) && ValidRevocations(env, t) && ValidFederations(env, t);
    hide ValidLeaves, ValidRevocations, ValidFederations;
    CAPasses(s, t, q);
    PassedSerials(s, t, q.id, TheCA);
    SameRelationships(env, s, t);
    FewerPending(env, s, t, q.id);
    SamePublished(env, s, t);
    AnnouncedIsValid(env, cfg, t, q.call, q.now);
    SameMaps(env, s, t);
  }

  lemma CARoom(s: Snapshot, q: Request)
    requires q.FinalizeCA?
    ensures Room(s, q) <==> |s.bundles| < MAX_BUNDLES
  {
  }

  lemma FinalizeCABounds(env: Env, cfg: Config, s: Snapshot, t: Snapshot, id: GrantID, call: nat,
                         now: nat)
    requires WithinBounds(s) && Announces(env, cfg, t, call, now)
    requires t == s.(revision := s.revision + 1, pending := s.pending - {id}, activeCA := t.activeCA,
                     bundles := t.bundles, outbox := t.outbox)
    requires |t.bundles| == |s.bundles| + 1
    ensures WithinBounds(t) <==> |s.bundles| < MAX_BUNDLES
  {
    hide Announces;
    SizeWithout(s.pending, {id});
    AnnouncedIsOne(env, cfg, t, call, now);
  }

  lemma NoBundleYet(s: Snapshot)
    requires s.identity.Some? && s.activeCA.None? && ValidCA(s)
    ensures s.identity.value !in s.bundles
  {
  }

  lemma FinalizeCAValid(env: Env, cfg: Config, s: Snapshot, q: Request)
    requires Base(env, cfg, s) && q.FinalizeCA? && Candidate(env, cfg, s, q).Some?
    requires q.id in s.pending && s.pending[q.id].operation == InitializeCAOp
    requires Issued(cfg, s.activeCA, s.pending[q.id], q.certificate)
    ensures ValidSnapshot(env, Candidate(env, cfg, s, q).value) <==> Room(s, q) && FitsDER(q.certificate)
  {
    hide ValidPendings, ValidBurned, DisjointSerials, ValidCA, ValidRelationships, ValidLeaves;
    hide ValidRevocations, ValidFederations;
    hide ValidBundles, ValidGrants, ValidOutbox, ValidPublished, WithinBounds, Candidate, Announces;
    hide ValidSnapshot, FitsDER, Room;
    var t := Candidate(env, cfg, s, q).value;
    FinalizeCAShape(env, cfg, s, q);
    PendingIsPositive(env, s, q.id);
    NoBundleYet(s);
    InstalledCA(env, cfg, s, t, q);
    SizeWith(s.bundles, cfg.identity, Bundle(cfg.identity, 1, [q.certificate], q.now));
    FinalizeCABounds(env, cfg, s, t, q.id, q.call, q.now);
    CARoom(s, q);
    FinalizeCARest(env, cfg, s, t, q);
  }

  lemma PendingIsPositive(env: Env, s: Snapshot, id: GrantID)
    requires ValidPendings(env, s) && id in s.pending
    ensures s.pending[id].serial > 0
  {
    assert ValidPending(env, id, s.pending[id]);
  }

  // A certificate.

  lemma FinalizeLeafShape(env: Env, cfg: Config, s: Snapshot, q: Request)
    requires q.FinalizeLeaf? && Candidate(env, cfg, s, q).Some?
    ensures q.id in s.pending && q.certificate !in s.certificates && q.now != 0
    ensures var t := Candidate(env, cfg, s, q).value;
            && t == s.(revision := s.revision + 1, pending := s.pending - {q.id}, certificates := t.certificates,
                       outbox := t.outbox)
            && t.certificates == s.certificates[q.certificate := LeafOf(cfg.identity, q.certificate, q.now)]
            && Announces(env, cfg, t, q.call, q.now)
  {
    hide Attach, Announces;
    AttachFacts(env, cfg, LeafInstalled(Unreserved(Next(s), {q.id}), cfg.identity, q.certificate, q.now), q.call,
                q.now);
  }

  lemma InstalledLeaf(env: Env, cfg: Config, s: Snapshot, t: Snapshot, q: Request)
    requires q.FinalizeLeaf? && s.identity == Some(cfg.identity) && t.identity == s.identity && q.now != 0
    requires q.certificate.serial > 0
    requires t.activeCA == s.activeCA && t.revocations == s.revocations && t.relationships == s.relationships
    requires t.federations == s.federations
    requires q.certificate !in s.certificates
    requires t.certificates == s.certificates[q.certificate := LeafOf(cfg.identity, q.certificate, q.now)]
    requires !q.certificate.isCA && q.certificate.leafProfile && q.certificate.uri == Some(cfg.identity)
    requires s.activeCA.Some? && SignedBy(q.certificate, s.activeCA.value)
    requires ValidLeaves(s) && ValidRevocations(env, s)
    ensures ValidLeaves(t) <==> FitsDER(q.certificate)
    ensures ValidRevocations(env, t)
  {
    forall c | c in s.certificates
      ensures ValidLeaf(t, c, t.certificates[c])
    {
      assert ValidLeaf(s, c, s.certificates[c]);
    }
    assert ValidLeaf(t, q.certificate, t.certificates[q.certificate]) <==> FitsDER(q.certificate);
    forall c | c in t.revocations
      ensures ValidRevocation(env, t, c, t.revocations[c])
    {
      assert ValidRevocation(env, s, c, s.revocations[c]);
    }
  }

  lemma LeafPasses(s: Snapshot, t: Snapshot, q: Request, name: Name)
    requires q.FinalizeLeaf? && q.id in s.pending && q.certificate !in s.certificates
    requires q.certificate.serial == s.pending[q.id].serial
    requires t.certificates == s.certificates[q.certificate := LeafOf(name, q.certificate, q.now)]
    requires t.activeCA == s.activeCA && t.pending == s.pending - {q.id} && t.nextSerial == s.nextSerial
    requires t.revocations == s.revocations && t.federations == s.federations && t.burned == s.burned
    ensures Passes(s, t, q.id, IssuedLeaf(q.certificate))
  {
  }

  lemma FinalizeLeafRest(env: Env, cfg: Config, s: Snapshot, t: Snapshot, q: Request)
    requires Base(env, cfg, s) && q.FinalizeLeaf? && q.now != 0 && q.id in s.pending && q.certificate !in s.certificates
    requires Announces(env, cfg, t, q.call, q.now) && q.certificate.serial == s.pending[q.id].serial
    requires t == s.(revision := s.revision + 1, pending := s.pending - {q.id}, certificates := t.certificates,
                     outbox := t.outbox)
    requires t.certificates == s.certificates[q.certificate := LeafOf(cfg.identity, q.certificate, q.now)]
    requires ValidRevocations(env, t)
    ensures ValidSnapshot(env, t) <==> WithinBounds(t) && ValidLeaves(t)
  {
    hide ValidCA, ValidRelationships, ValidLeaves, ValidPendings, ValidBurned, ValidRevocations;
    hide DisjointSerials, ValidFederations;
    hide ValidBundles, ValidGrants, ValidOutbox, ValidPublished, WithinBounds, RelationshipsGranted, Announces;
    LeafPasses(s, t, q, cfg.identity);
    PassedSerials(s, t, q.id, IssuedLeaf(q.certificate));
    SameCA(s, t);
    SameRelationships(env, s, t);
    FewerPending(env, s, t, q.id);
    SameFederations(env, s, t);
    SamePublished(env, s, t);
    AnnouncedIsValid(env, cfg, t, q.call, q.now);
    SameMaps(env, s, t);
  }

  lemma LeafRoom(s: Snapshot, q: Request)
    requires q.FinalizeLeaf?
    ensures Room(s, q) <==> |s.certificates| < MAX_CERTIFICATES
  {
  }

  lemma FinalizeLeafBounds(env: Env, cfg: Config, s: Snapshot, t: Snapshot, id: GrantID, call: nat,
                           now: nat)
    requires WithinBounds(s) && Announces(env, cfg, t, call, now)
    requires t == s.(revision := s.revision + 1, pending := s.pending - {id}, certificates := t.certificates,
                     outbox := t.outbox)
    requires |t.certificates| == |s.certificates| + 1
    ensures WithinBounds(t) <==> |s.certificates| < MAX_CERTIFICATES
  {
    hide Announces;
    SizeWithout(s.pending, {id});
    AnnouncedIsOne(env, cfg, t, call, now);
  }

  lemma FinalizeLeafValid(env: Env, cfg: Config, s: Snapshot, q: Request)
    requires Base(env, cfg, s) && q.FinalizeLeaf? && Candidate(env, cfg, s, q).Some?
    requires q.id in s.pending && s.pending[q.id].operation == IssueOp
    requires Issued(cfg, s.activeCA, s.pending[q.id], q.certificate)
    ensures ValidSnapshot(env, Candidate(env, cfg, s, q).value) <==> Room(s, q) && FitsDER(q.certificate)
  {
    hide ValidPendings, ValidBurned, DisjointSerials, ValidCA, ValidRelationships, ValidLeaves;
    hide ValidRevocations, ValidFederations;
    hide ValidBundles, ValidGrants, ValidOutbox, ValidPublished, WithinBounds, Candidate, Announces;
    hide ValidSnapshot, FitsDER, Room;
    var t := Candidate(env, cfg, s, q).value;
    FinalizeLeafShape(env, cfg, s, q);
    PendingIsPositive(env, s, q.id);
    InstalledLeaf(env, cfg, s, t, q);
    SizeWith(s.certificates, q.certificate, LeafOf(cfg.identity, q.certificate, q.now));
    FinalizeLeafBounds(env, cfg, s, t, q.id, q.call, q.now);
    LeafRoom(s, q);
    FinalizeLeafRest(env, cfg, s, t, q);
  }

  // A federation.

  function EstablishedAt(s: Snapshot, e: Edge): nat {
    if e.remote in s.federations then s.federations[e.remote].establishedAt else e.startedAt
  }

  /** The issuer's checks leave open whether the certificate may sign certificates, and its size. */
  predicate CrossOk(s: Snapshot, q: Request)
    requires q.FinalizeCross?
  {
    q.certificate.certSign && FitsDER(q.certificate) && q.now >= EstablishedAt(s, q.edge)
  }

  lemma FinalizeCrossShape(env: Env, cfg: Config, s: Snapshot, q: Request)
    requires q.FinalizeCross? && Candidate(env, cfg, s, q).Some?
    ensures q.id in s.pending && q.now != 0
    ensures var t := Candidate(env, cfg, s, q).value;
            var u := CrossInstalled(s, cfg.identity, q.certificate, s.pending[q.id].serial, q.edge, q.now);
            && t == s.(revision := s.revision + 1, pending := s.pending - {q.id}, federations := t.federations,
                       revocations := t.revocations, bundles := t.bundles, outbox := t.outbox)
            && t.federations == u.federations && t.revocations == u.revocations && t.bundles == u.bundles
            && Announces(env, cfg, t, q.call, q.now)
  {
    hide Attach, Announces;
    AttachFacts(env, cfg, CrossInstalled(Unreserved(Next(s), {q.id}), cfg.identity, q.certificate,
                                         s.pending[q.id].serial, q.edge, q.now), q.call, q.now);
  }

  lemma OneHolder(s: Snapshot, h: Holder, k: Holder, n: nat)
    requires DisjointSerials(s) && Holds(s, h, n) && Holds(s, k, n)
    ensures h == k
  {
    hide Holds;
  }

  /** A certificate with a reserved serial is new: no federation uses it, and it was never revoked. */
  lemma CrossIsNew(env: Env, s: Snapshot, id: GrantID, c: Certificate)
    requires s.identity.Some? && ValidLeaves(s) && ValidRevocations(env, s) && ValidFederations(env, s)
    requires DisjointSerials(s)
    requires id in s.pending && c.serial == s.pending[id].serial && c.isCA
    ensures c !in s.revocations && NotInUse(s, c)
  {
    hide ValidLeaves, ValidRevocations, ValidFederations, DisjointSerials;
    if c in s.revocations {
      RevokedKind(env, s, c);
      if s.revocations[c].kind == LeafKind {
        LeafIsNoCA(s, c);
      } else {
        OneHolder(s, Reserved(id), RetiredCross(c), c.serial);
      }
    }
    forall d | d in s.federations
      ensures s.federations[d].cross != c
    {
      CrossIsCA(env, s, d);
      if s.federations[d].cross == c { OneHolder(s, Reserved(id), Cross(d), c.serial); }
    }
  }

  /** The entry that changes is valid exactly when the cross-certificate is. */
  lemma InstalledFederation(env: Env, cfg: Config, s: Snapshot, t: Snapshot, q: Request)
    requires q.FinalizeCross? && s.identity == Some(cfg.identity) && t.identity == s.identity
    requires t.activeCA == s.activeCA && s.activeCA.Some? && SignedBy(q.certificate, s.activeCA.value)
    requires q.id in s.pending && SoundEdge(env, cfg, q.edge)
    requires q.edge.remote in s.federations ==>
               ValidFederation(env, s, q.edge.remote, s.federations[q.edge.remote])
    requires q.certificate.isCA && q.certificate.subject == q.edge.remote
    requires q.certificate.serial == s.pending[q.id].serial > 0
    requires q.edge.remote in t.federations
    requires t.federations[q.edge.remote] ==
             CrossInstalled(s, cfg.identity, q.certificate, s.pending[q.id].serial, q.edge,
                            q.now).federations[q.edge.remote]
    ensures ValidFederation(env, t, q.edge.remote, t.federations[q.edge.remote]) <==> CrossOk(s, q)
    ensures t.federations[q.edge.remote].cross == q.certificate
  {
  }

  /** The others stay as they were. */
  lemma OtherFederation(env: Env, s: Snapshot, t: Snapshot, d: Name)
    requires s.identity.Some? && t.identity == s.identity && t.activeCA == s.activeCA
    requires d in s.federations && d in t.federations && t.federations[d] == s.federations[d]
    ensures ValidFederation(env, t, d, t.federations[d]) <==> ValidFederation(env, s, d, s.federations[d])
  {
  }

  lemma InstalledFederations(env: Env, cfg: Config, s: Snapshot, t: Snapshot, q: Request)
    requires q.FinalizeCross? && s.identity == Some(cfg.identity) && t.identity == s.identity
    requires t.activeCA == s.activeCA
    requires q.id in s.pending && SoundEdge(env, cfg, q.edge) && ValidFederations(env, s) && NotInUse(s, q.certificate)
    requires q.certificate.isCA && q.certificate.subject == q.edge.remote
    requires q.certificate.serial == s.pending[q.id].serial > 0
    requires s.activeCA.Some? && SignedBy(q.certificate, s.activeCA.value)
    requires t.federations ==
             CrossInstalled(s, cfg.identity, q.certificate, s.pending[q.id].serial, q.edge, q.now).federations
    ensures ValidFederations(env, t) <==> CrossOk(s, q)
  {
    hide ValidFederation, CrossOk, SoundEdge, SignedBy;
    var d := q.edge.remote;
    assert t.federations.Keys == s.federations.Keys + {d};
    assert forall e :: e in s.federations && e != d ==> t.federations[e] == s.federations[e];
    InstalledFederation(env, cfg, s, t, q);
    hide CrossInstalled;
    forall e | e in s.federations && e != d
      ensures ValidFederation(env, t, e, t.federations[e])
    {
      OtherFederation(env, s, t, e);
    }
  }

  /** The certificate that is replaced is retired rightly. */
  lemma RetiredRevocation(env: Env, s: Snapshot, t: Snapshot, d: Name, r: Revocation)
    requires s.identity.Some? && t.activeCA == s.activeCA && t.certificates == s.certificates
    requires d in s.federations && ValidFederation(env, s, d, s.federations[d]) && env.canonical(d)
    requires s.federations[d].cross !in s.certificates && NotInUse(t, s.federations[d].cross) && r.revokedAt != 0
    requires r == Revocation(s.federations[d].cross, s.federations[d].crossSerial, CrossKind, r.revokedAt)
    ensures ValidRevocation(env, t, s.federations[d].cross, r)
  {
  }

  /** The others stay. */
  lemma OtherRevocation(env: Env, s: Snapshot, t: Snapshot, c: Certificate, r: Revocation)
    requires t.activeCA == s.activeCA && t.certificates == s.certificates
    requires ValidRevocation(env, s, c, r) && (NotInUse(s, c) ==> NotInUse(t, c))
    ensures ValidRevocation(env, t, c, r)
  {
  }

  lemma RetiredRevocations(env: Env, cfg: Config, s: Snapshot, t: Snapshot, q: Request)
    requires q.FinalizeCross? && s.identity.Some? && t.activeCA == s.activeCA
    requires t.certificates == s.certificates && q.now != 0
    requires q.id in s.pending && ValidLeaves(s) && ValidFederations(env, s) && ValidRevocations(env, s)
    requires q.certificate !in s.revocations && NotInUse(s, q.certificate)
    requires var u := CrossInstalled(s, cfg.identity, q.certificate, s.pending[q.id].serial, q.edge, q.now);
             t.federations == u.federations && t.revocations == u.revocations
    ensures ValidRevocations(env, t)
  {
    hide ValidRevocation, ValidFederation, ValidLeaf;
    var d := q.edge.remote;
    forall c | c in t.revocations
      ensures ValidRevocation(env, t, c, t.revocations[c])
    {
      if d in s.federations && c == s.federations[d].cross {
        CrossIsCA(env, s, d);
        if c in s.certificates { LeafIsNoCA(s, c); }
        ValidEdgeName(env, s, d);
        RetiredRevocation(env, s, t, d, t.revocations[c]);
      } else {
        OtherRevocation(env, s, t, c, s.revocations[c]);
      }
    }
  }

  lemma ValidEdgeName(env: Env, s: Snapshot, d: Name)
    requires s.identity.Some? && ValidFederations(env, s) && d in s.federations
    ensures env.canonical(d) && ValidFederation(env, s, d, s.federations[d])
  {
    assert ValidFederation(env, s, d, s.federations[d]);
  }

  /** Who held a serial before a cross-certificate took over a reservation. */
  function CrossFrom(s: Snapshot, id: GrantID, remote: Name, h: Holder): Holder {
    if h == Cross(remote) then Reserved(id)
    else if remote in s.federations && h == RetiredCross(s.federations[remote].cross) then Cross(remote)
    else h
  }

  lemma CrossHeld(s: Snapshot, t: Snapshot, id: GrantID, remote: Name, h: Holder, n: nat)
    requires id in s.pending && Federates(s, t, s.pending[id].serial, remote) && Holds(t, h, n)
    requires t.activeCA == s.activeCA && t.certificates == s.certificates && t.pending == s.pending - {id}
    requires t.burned == s.burned
    ensures Holds(s, CrossFrom(s, id, remote, h), n) && h != Reserved(id)
  {
  }

  lemma CrossSerials(env: Env, s: Snapshot, t: Snapshot, id: GrantID, remote: Name)
    requires DisjointSerials(s) && id in s.pending && Federates(s, t, s.pending[id].serial, remote)
    requires t.nextSerial == s.nextSerial
    requires t.activeCA == s.activeCA && t.certificates == s.certificates && t.pending == s.pending - {id}
    requires t.burned == s.burned
    ensures DisjointSerials(t)
  {
    hide Holds, Federates, DisjointSerials;
    forall h, n: nat | Holds(t, h, n)
      ensures Holds(s, CrossFrom(s, id, remote, h), n) && h != Reserved(id)
    {
      CrossHeld(s, t, id, remote, h, n);
    }
    DisjointThrough(s, t, h => CrossFrom(s, id, remote, h));
  }

  lemma InstalledBundles(env: Env, cfg: Config, s: Snapshot, t: Snapshot, q: Request)
    requires q.FinalizeCross? && s.identity == Some(cfg.identity) && t.identity == s.identity
    requires t.activeCA == s.activeCA && q.now != 0
    requires q.id in s.pending && SoundEdge(env, cfg, q.edge) && ValidBundles(env, s) && ValidCA(s)
    requires t.bundles == CrossInstalled(s, cfg.identity, q.certificate, s.pending[q.id].serial, q.edge, q.now).bundles
    ensures ValidBundles(env, t) && ValidCA(t)
    ensures |t.bundles| == |s.bundles| + if q.edge.remote in s.bundles then 0 else 1
  {
    assert forall d :: d in s.bundles ==> ValidBundle(env, d, s.bundles[d]);
    var b := t.bundles[q.edge.remote];
    assert ValidBundle(env, q.edge.remote, b);
    SizeWith(s.bundles, q.edge.remote, b);
  }

  lemma FinalizeCrossSizes(env: Env, cfg: Config, s: Snapshot, t: Snapshot, q: Request)
    requires q.FinalizeCross? && q.id in s.pending
    requires q.edge.remote in s.federations ==> s.federations[q.edge.remote].cross !in s.revocations
    requires var u := CrossInstalled(s, cfg.identity, q.certificate, s.pending[q.id].serial, q.edge, q.now);
             t.federations == u.federations && t.revocations == u.revocations
    ensures |t.federations| == |s.federations| + if q.edge.remote in s.federations then 0 else 1
    ensures |t.revocations| == |s.revocations| + if q.edge.remote in s.federations then 1 else 0
    ensures s.revocations.Keys <= t.revocations.Keys
  {
    SizeWith(s.federations, q.edge.remote, t.federations[q.edge.remote]);
    if q.edge.remote in s.federations {
      SizeWith(s.revocations, s.federations[q.edge.remote].cross, t.revocations[s.federations[q.edge.remote].cross]);
    }
  }

  lemma FinalizeCrossBounds(env: Env, cfg: Config, s: Snapshot, t: Snapshot, id: GrantID, remote: Name,
                            call: nat, now: nat)
    requires WithinBounds(s) && Announces(env, cfg, t, call, now)
    requires t == s.(revision := s.revision + 1, pending := s.pending - {id}, federations := t.federations,
                     revocations := t.revocations, bundles := t.bundles, outbox := t.outbox)
    requires |t.bundles| == |s.bundles| + if remote in s.bundles then 0 else 1
    requires |t.federations| == |s.federations| + if remote in s.federations then 0 else 1
    requires |t.revocations| == |s.revocations| + if remote in s.federations then 1 else 0
    ensures WithinBounds(t) <==> CrossRoom(s, remote)
  {
    hide Announces;
    SizeWithout(s.pending, {id});
    AnnouncedIsOne(env, cfg, t, call, now);
  }

  lemma FinalizeCrossRest(env: Env, cfg: Config, s: Snapshot, t: Snapshot, q: Request)
    requires Base(env, cfg, s) && q.FinalizeCross? && q.id in s.pending && Announces(env, cfg, t, q.call, q.now)
    requires t == s.(revision := s.revision + 1, pending := s.pending - {q.id}, federations := t.federations,
                     revocations := t.revocations, bundles := t.bundles, outbox := t.outbox)
    requires s.revocations.Keys <= t.revocations.Keys
    requires ValidRevocations(env, t) && ValidBundles(env, t) && ValidCA(t) && DisjointSerials(t)
    ensures ValidSnapshot(env, t) <==> WithinBounds(t) && ValidFederations(env, t)
  {
    hide ValidCA, ValidRelationships, ValidLeaves, ValidPendings, ValidBurned, ValidRevocations;
    hide DisjointSerials, ValidFederations;
    hide ValidBundles, ValidGrants, ValidOutbox, ValidPublished, WithinBounds, RelationshipsGranted, Announces;
    SameRelationships(env, s, t);
    SameLeaves(s, t);
    FewerPending(env, s, t, q.id);
    SamePublished(env, s, t);
    AnnouncedIsValid(env, cfg, t, q.call, q.now);
    SameMaps(env, s, t);
  }

  lemma CrossRoomIsRoom(s: Snapshot, q: Request)
    requires q.FinalizeCross?
    ensures Room(s, q) <==> CrossRoom(s, q.edge.remote)
  {
  }

  lemma CrossFederates(cfg: Config, s: Snapshot, t: Snapshot, q: Request)
    requires q.FinalizeCross? && q.id in s.pending
    requires var u := CrossInstalled(s, cfg.identity, q.certificate, s.pending[q.id].serial, q.edge, q.now);
             t.federations == u.federations && t.revocations == u.revocations
    ensures Federates(s, t, s.pending[q.id].serial, q.edge.remote)
  {
  }

  lemma FinalizeCrossValid(env: Env, cfg: Config, s: Snapshot, q: Request)
    requires Base(env, cfg, s) && q.FinalizeCross? && Candidate(env, cfg, s, q).Some? && SoundEdge(env, cfg, q.edge)
    requires q.id in s.pending && s.pending[q.id].operation == FederateOp
    requires s.pending[q.id].remote == Some(q.edge.remote)
    requires Issued(cfg, s.activeCA, s.pending[q.id], q.certificate)
    ensures ValidSnapshot(env, Candidate(env, cfg, s, q).value) <==> Room(s, q) && CrossOk(s, q)
  {
    hide ValidPendings, ValidBurned, DisjointSerials, ValidCA, ValidRelationships, ValidLeaves;
    hide ValidRevocations, ValidFederations;
    hide ValidBundles, ValidGrants, ValidOutbox, ValidPublished, WithinBounds, Candidate, Announces;
    hide ValidSnapshot, Room, CrossOk;
    hide CrossInstalled, NotInUse, SoundEdge, Federates, RelationshipsGranted, CrossRoom;
    var t := Candidate(env, cfg, s, q).value;
    FinalizeCrossShape(env, cfg, s, q);
    PendingIsPositive(env, s, q.id);
    CrossIsNew(env, s, q.id, q.certificate);
    InstalledFederations(env, cfg, s, t, q);
    RetiredRevocations(env, cfg, s, t, q);
    InstalledBundles(env, cfg, s, t, q);
    CrossFederates(cfg, s, t, q);
    CrossSerials(env, s, t, q.id, q.edge.remote);
    if q.edge.remote in s.federations { InUseIsNotRevoked(env, s, q.edge.remote); }
    FinalizeCrossSizes(env, cfg, s, t, q);
    FinalizeCrossBounds(env, cfg, s, t, q.id, q.edge.remote, q.call, q.now);
    CrossRoomIsRoom(s, q);
    FinalizeCrossRest(env, cfg, s, t, q);
  }

  // Draining.

  lemma DrainShape(env: Env, cfg: Config, s: Snapshot, q: Request)
    requires q.Drain? && Candidate(env, cfg, s, q).Some?
    ensures q.item in s.outbox && ValidReceipt(env, q.receipt, s.outbox[q.item], s.lastSequence)
    ensures PrunesRightly(s.published, q.pruned)
    ensures var t := Candidate(env, cfg, s, q).value;
            var p := s.outbox[q.item];
            && t == s.(revision := s.revision + 1, outbox := t.outbox, published := t.published,
                       lastSequence := q.receipt.sequence, lastRoot := q.receipt.root)
            && t.outbox == s.outbox - {p.id}
            && t.published == (if q.pruned.Some? then s.published - {q.pruned.value} else s.published)
                              [p.id := Published(p.digest, q.receipt.root, q.receipt.sequence, q.now)]
  {
    hide ValidReceipt, PrunesRightly;
  }

  lemma NewRecordValid(env: Env, kept: map<Digest, Published>, id: Digest, p: Published)
    requires ValidRecords(env, kept) && p.digest == id && env.contentID(p.root) && p.sequence > 0
    ensures ValidRecords(env, kept[id := p]) <==> p.completedAt != 0
  {
    var more := kept[id := p];
    assert id in more && more[id] == p;
  }

  lemma NewTop(kept: map<Digest, Published>, id: Digest, p: Published)
    requires SequencesDiffer(kept) && (forall d :: d in kept ==> kept[d].sequence < p.sequence)
    ensures SequencesDiffer(kept[id := p]) && TopIs(kept[id := p], p.sequence, p.root)
  {
    var more := kept[id := p];
    assert id in more && more[id] == p;
  }

  lemma KeptRecords(env: Env, all: map<Digest, Published>, kept: map<Digest, Published>)
    requires kept.Keys <= all.Keys && (forall d :: d in kept ==> kept[d] == all[d]) && ValidRecords(env, all)
             && SequencesDiffer(all)
    ensures ValidRecords(env, kept) && SequencesDiffer(kept)
  {
    hide ValidPublishedRecord;
  }

  /** The new item has the highest sequence; of the others only the oldest may be gone. */
  lemma DrainedPublished(env: Env, s: Snapshot, t: Snapshot, kept: map<Digest, Published>, id: Digest, p: Published)
    requires ValidPublished(env, s) && kept.Keys <= s.published.Keys
             && (forall d :: d in kept ==> kept[d] == s.published[d])
    requires t.published == kept[id := p] && t.lastSequence == p.sequence > s.lastSequence && t.lastRoot == p.root
    requires p.digest == id && env.contentID(p.root)
    ensures ValidPublished(env, t) <==> p.completedAt != 0
  {
    hide ValidRecords, SequencesDiffer;
    KeptRecords(env, s.published, kept);
    NewRecordValid(env, kept, id, p);
    NewTop(kept, id, p);
    hide TopIs;
  }

  lemma DrainBounds(s: Snapshot, t: Snapshot, pruned: Option<Digest>, kept: map<Digest, Published>, id: Digest,
                    p: Published, item: Digest)
    requires WithinBounds(s) && PrunesRightly(s.published, pruned)
    requires kept == (if pruned.Some? then s.published - {pruned.value} else s.published)
    requires t.published == kept[id := p]
    requires t.outbox == s.outbox - {item}
    requires t == s.(revision := s.revision + 1, outbox := t.outbox, published := t.published,
                     lastSequence := t.lastSequence, lastRoot := t.lastRoot)
    ensures WithinBounds(t)
  {
    SizeWithout(s.outbox, {item});
    SizeWith(kept, id, p);
    if pruned.Some? { assert kept.Keys == s.published.Keys - {pruned.value}; }
  }

  lemma ItemIsItsDigest(env: Env, s: Snapshot, d: Digest)
    requires s.identity.Some? && ValidOutbox(env, s) && d in s.outbox
    ensures s.outbox[d].digest == s.outbox[d].id == d
  {
    hide Publishable;
  }

  lemma DrainRest(env: Env, cfg: Config, s: Snapshot, t: Snapshot, item: Digest)
    requires Base(env, cfg, s) && t.outbox == s.outbox - {item}
    requires t == s.(revision := s.revision + 1, outbox := t.outbox, published := t.published,
                     lastSequence := t.lastSequence, lastRoot := t.lastRoot)
    ensures ValidSnapshot(env, t) <==> WithinBounds(t) && ValidPublished(env, t)
  {
    hide ValidCA, ValidRelationships, ValidLeaves, ValidPendings, ValidBurned, ValidRevocations;
    hide DisjointSerials, ValidFederations;
    hide ValidBundles, ValidGrants, ValidOutbox, ValidPublished, WithinBounds, RelationshipsGranted;
    SameCA(s, t);
    SameRelationships(env, s, t);
    SameLeaves(s, t);
    SameRevocations(env, s, t);
    SameSerials(s, t);
    SameFederations(env, s, t);
    SameOutbox(env, s, t);
    SameMaps(env, s, t);
  }

  lemma DrainValid(env: Env, cfg: Config, s: Snapshot, q: Request)
    requires Base(env, cfg, s) && q.Drain? && Candidate(env, cfg, s, q).Some?
    ensures ValidSnapshot(env, Candidate(env, cfg, s, q).value) <==> q.now != 0
  {
    hide ValidPendings, ValidBurned, DisjointSerials, ValidCA, ValidRelationships, ValidLeaves;
    hide ValidRevocations, ValidFederations;
    hide ValidBundles, ValidGrants, ValidOutbox, ValidPublished, WithinBounds, Candidate, ValidSnapshot;
    hide PrunesRightly, RelationshipsGranted;
    var t := Candidate(env, cfg, s, q).value;
    DrainShape(env, cfg, s, q);
    ItemIsItsDigest(env, s, q.item);
    var p := s.outbox[q.item];
    var kept := if q.pruned.Some? then s.published - {q.pruned.value} else s.published;
    var record := Published(p.digest, q.receipt.root, q.receipt.sequence, q.now);
    DrainedPublished(env, s, t, kept, p.id, record);
    DrainBounds(s, t, q.pruned, kept, p.id, record, p.id);
    DrainRest(env, cfg, s, t, p.id);
  }

  // All operations.

  lemma BindValid(env: Env, cfg: Config)
    ensures BindNext(cfg, EMPTY).Some?
            && (ValidSnapshot(env, BindNext(cfg, EMPTY).value) <==> env.canonical(cfg.identity))
  {
  }

  /** The store is bound, or this operation binds it to a canonical name. */
  predicate BoundFirst(env: Env, cfg: Config, s: Snapshot, q: Request) {
    s.revision > 0 || (q.Bind? && env.canonical(cfg.identity))
  }

  /** Nothing but a binding to a canonical name makes a valid snapshot of the empty store. */
  lemma EmptyStoreIsBound(env: Env, cfg: Config, q: Request)
    requires Candidate(env, cfg, EMPTY, q).Some?
    ensures ValidSnapshot(env, Candidate(env, cfg, EMPTY, q).value) <==> BoundFirst(env, cfg, EMPTY, q)
  {
    if q.Bind? {
      hide ValidSnapshot;
      BindValid(env, cfg);
    } else {
      hide Candidate, Announces, ReservesOnly, PendingShrinks, RightlyReserved, Consumes;
      CandidateFacts(env, cfg, EMPTY, q);
      hide ValidCA, ValidRelationships, ValidLeaves, ValidPendings, ValidBurned, ValidRevocations, DisjointSerials;
      hide ValidFederations, ValidBundles, ValidGrants, ValidOutbox, ValidPublished, WithinBounds;
    }
  }

  /** What an operation's own checks have established before it commits. */
  predicate Checked(env: Env, cfg: Config, s: Snapshot, q: Request) {
    match q
    case FinalizeCA(id, c, _, _) =>
      id in s.pending ==> s.pending[id].operation == InitializeCAOp && Issued(cfg, s.activeCA, s.pending[id], c)
    case FinalizeLeaf(id, c, _, _) =>
      id in s.pending ==> s.pending[id].operation == IssueOp && Issued(cfg, s.activeCA, s.pending[id], c)
    case FinalizeCross(id, c, e, _, _) =>
      && SoundEdge(env, cfg, e)
      && (id in s.pending ==>
            && s.pending[id].operation == FederateOp && s.pending[id].remote == Some(e.remote)
            && Issued(cfg, s.activeCA, s.pending[id], c))
    case _ => true
  }

  /** None of the cases in which the store must refuse what the operation built. */
  predicate Unexceptional(s: Snapshot, q: Request) {
    match q
    case Adopt(_, _, g, _, now) => UpgradeOk(s, g, now)
    case RevokeTrust(_, id, _, _, now) => RevocationOk(s, id, now)
    case FinalizeCA(_, c, _, _) => FitsDER(c)
    case FinalizeLeaf(_, c, _, _) => FitsDER(c)
    case FinalizeCross(_, _, _, _, _) => CrossOk(s, q)
    case Drain(_, _, _, now) => now != 0
    case _ => true
  }

  /** The exceptions that remain when no generation is near its end. */
  predicate Untroubled(s: Snapshot, q: Request) {
    match q
    case Adopt(_, _, g, _, now) =>
      g.related.Some? && g.related.value in s.relationships ==> now >= s.relationships[g.related.value].establishedAt
    case RevokeTrust(_, id, _, _, now) =>
      id in s.relationships ==> now >= s.relationships[id].establishedAt && !Depended(s, id)
    case _ => Unexceptional(s, q)
  }

  /** An operation on young relationships meets no last generation. */
  lemma YoungIsUntroubled(env: Env, cfg: Config, s: Snapshot, q: Request)
    requires AllYoung(s)
    ensures Unexceptional(s, q) <==> Untroubled(s, q)
  {
    hide Depended, FitsDER, CrossOk;
  }

  /** Validity preservation, exactly: an operation on a valid snapshot builds one the store accepts if and only if the
      store is bound or bound now, the collections have room and none of the exceptions applies. */
  lemma ValidityPreservation(env: Env, cfg: Config, s: Snapshot, q: Request)
    requires ValidSnapshot(env, s) && (s.revision > 0 ==> s.identity == Some(cfg.identity)) && RelationshipsGranted(s)
    requires Candidate(env, cfg, s, q).Some? && Checked(env, cfg, s, q)
    ensures ValidSnapshot(env, Candidate(env, cfg, s, q).value) <==>
            BoundFirst(env, cfg, s, q) && Room(s, q) && Unexceptional(s, q)
  {
    if s.revision == 0 {
      EmptyStoreIsBound(env, cfg, q);
    } else {
      BoundPreservation(env, cfg, s, q);
    }
  }

  lemma BoundPreservation(env: Env, cfg: Config, s: Snapshot, q: Request)
    requires ValidSnapshot(env, s) && s.revision > 0 && s.identity == Some(cfg.identity) && RelationshipsGranted(s)
    requires Candidate(env, cfg, s, q).Some? && Checked(env, cfg, s, q)
    ensures ValidSnapshot(env, Candidate(env, cfg, s, q).value) <==> Room(s, q) && Unexceptional(s, q)
  {
    hide Base, ValidSnapshot, RelationshipsGranted, Candidate, UpgradeOk, RevocationOk, FitsDER, CrossOk;
    hide Issued, SoundEdge;
    hide BoundCertificates, SerialsOf;
    BaseOf(env, cfg, s);
    PendingIsThere(env, cfg, s, q);
    if Reserves(q) {
      ReserveValid(env, cfg, s, q);
    } else {
      match q
      case Bind =>
      case Adopt(_, _, _, _, _) => AdoptValid(env, cfg, s, q);
      case RevokeTrust(_, _, _, _, _) => RevokeTrustValid(env, cfg, s, q);
      case RevokeCertificate(_, _, _, _, _) => RevokeCertificateValid(env, cfg, s, q);
      case FinalizeCA(_, _, _, _) => FinalizeCAValid(env, cfg, s, q);
      case FinalizeLeaf(_, _, _, _) => FinalizeLeafValid(env, cfg, s, q);
      case FinalizeCross(_, _, _, _, _) => FinalizeCrossValid(env, cfg, s, q);
      case Burn(_, _, _) => BurnValid(env, cfg, s, q);
      case Drain(_, _, _, _) => DrainValid(env, cfg, s, q);
    }
  }

  /** Completions have their reservation, and only an unbound store is bound. */
  lemma PendingIsThere(env: Env, cfg: Config, s: Snapshot, q: Request)
    requires s.revision > 0 && Candidate(env, cfg, s, q).Some?
    ensures !q.Bind?
    ensures q.FinalizeCA? || q.FinalizeLeaf? || q.FinalizeCross? ==> q.id in s.pending
  {
    hide Attach, Granted, MayReserve, MayFederate, AdoptNext, RevokeTrustNext, RevokeCertificateNext;
    hide ReserveCANext, ReserveLeafNext;
    hide ReserveCrossNext, BurnNext, DrainNext, CrossInstalled, CAInstalled, LeafInstalled;
  }
}
