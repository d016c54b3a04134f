/** The loops that check a trust document: they fill sets and counters and decide validity exactly. */
module TrustChecks {
  import opened Codec
  import opened PublicData
  import opened TrustTypes

  // Relationships.

  /** What a pass over some relationships has found. */
  datatype Found = Found(principals: set<Name>, owners: nat, authorized: bool)

  ghost predicate Summary(s: Snapshot, done: set<RelationshipID>, f: Found) {
    && (forall id :: id in done && LiveAt(s, id) ==> s.relationships[id].principal in f.principals)
    && (forall p :: p in f.principals ==>
          exists id :: id in done && LiveAt(s, id) && s.relationships[id].principal == p)
    && f.owners == |LiveOwners(s, done)|
    && (f.authorized <==> exists id :: id in done && AuthorizedOwnerAt(s, id))
  }

  function LiveOwners(s: Snapshot, done: set<RelationshipID>): set<RelationshipID> {
    set id | id in done && LiveOwnerAt(s, id)
  }

  ghost predicate PrincipalsDiffer(s: Snapshot, done: set<RelationshipID>) {
    forall a, b ::
      a in done && b in done && LiveAt(s, a) && LiveAt(s, b)
      && s.relationships[a].principal == s.relationships[b].principal
      ==> a == b
  }

  function AddRelationship(r: Relationship, f: Found): Found {
    if !Live(r) then f
    else
      Found(f.principals + {r.principal},
            f.owners + (if r.role == Owner then 1 else 0),
            f.authorized || (r.role == Owner && r.phase == Authorized))
  }

  lemma OwnersOneMore(s: Snapshot, done: set<RelationshipID>, id: RelationshipID)
    requires id in s.relationships && id !in done
    ensures |LiveOwners(s, done + {id})| == |LiveOwners(s, done)| + if LiveOwnerAt(s, id) then 1 else 0
  {
    if LiveOwnerAt(s, id) {
      assert LiveOwners(s, done + {id}) == LiveOwners(s, done) + {id};
    } else {
      assert LiveOwners(s, done + {id}) == LiveOwners(s, done);
    }
  }

  lemma SummaryOneMore(s: Snapshot, done: set<RelationshipID>, f: Found, id: RelationshipID)
    requires id in s.relationships && id !in done && Summary(s, done, f)
    ensures Summary(s, done + {id}, AddRelationship(s.relationships[id], f))
  {
    var g := AddRelationship(s.relationships[id], f);
    var more := done + {id};
    OwnersOneMore(s, done, id);
    forall p | p in g.principals
      ensures exists k :: k in more && LiveAt(s, k) && s.relationships[k].principal == p
    {
      if p in f.principals {
        var k :| k in done && LiveAt(s, k) && s.relationships[k].principal == p;
        assert k in more;
      } else {
        assert id in more && LiveAt(s, id);
      }
    }
    if g.authorized {
      if f.authorized {
        var k :| k in done && AuthorizedOwnerAt(s, k);
        assert k in more;
      } else {
        assert id in more && AuthorizedOwnerAt(s, id);
      }
    }
  }

  lemma PrincipalOneMore(s: Snapshot, done: set<RelationshipID>, f: Found, id: RelationshipID)
    requires id in s.relationships && id !in done && Summary(s, done, f) && PrincipalsDiffer(s, done)
    ensures Live(s.relationships[id]) && s.relationships[id].principal in f.principals ==> !OnePerPrincipal(s)
    ensures !(Live(s.relationships[id]) && s.relationships[id].principal in f.principals) ==>
              PrincipalsDiffer(s, done + {id})
  {
    if Live(s.relationships[id]) && s.relationships[id].principal in f.principals {
      var k :| k in done && LiveAt(s, k) && s.relationships[k].principal == s.relationships[id].principal;
      assert LiveAt(s, id);
    }
  }

  lemma NothingSummed(s: Snapshot)
    ensures Summary(s, {}, Found({}, 0, false)) && PrincipalsDiffer(s, {})
  {
    assert LiveOwners(s, {}) == {};
  }

  lemma AllDiffer(s: Snapshot)
    requires PrincipalsDiffer(s, s.relationships.Keys)
    ensures OnePerPrincipal(s)
  {
  }

  method ScanRelationships(env: Env, s: Snapshot) returns (ok: bool, found: Found)
    requires s.identity.Some?
    ensures ok <==>
            (forall id :: id in s.relationships ==> ValidRelationship(env, s.identity.value, id, s.relationships[id]))
                    && OnePerPrincipal(s)
    ensures ok ==> Summary(s, s.relationships.Keys, found)
  {
    hide Summary, PrincipalsDiffer, OnePerPrincipal, ValidRelationship;
    NothingSummed(s);
    found := Found({}, 0, false);
    var done: set<RelationshipID> := {};
    while s.relationships.Keys - done != {}
      invariant done <= s.relationships.Keys
      invariant forall id :: id in done ==> ValidRelationship(env, s.identity.value, id, s.relationships[id])
      invariant Summary(s, done, found)
      invariant PrincipalsDiffer(s, done)
      decreases s.relationships.Keys - done
    {
      var id :| id in s.relationships.Keys - done;
      var r := s.relationships[id];
      if !ValidRelationship(env, s.identity.value, id, r) { return false, found; }
      PrincipalOneMore(s, done, found, id);
      if Live(r) && r.principal in found.principals { return false, found; }
      SummaryOneMore(s, done, found, id);
      found := AddRelationship(r, found);
      done := done + {id};
    }
    assert done == s.relationships.Keys;
    AllDiffer(s);
    return true, found;
  }

  lemma OwnersCounted(s: Snapshot)
    ensures OneOwner(s) <==> |LiveOwners(s, s.relationships.Keys)| <= 1
  {
    var owners := LiveOwners(s, s.relationships.Keys);
    if |owners| > 1 {
      var a :| a in owners;
      assert |owners - {a}| > 0;
      var b :| b in owners - {a};
      assert LiveOwnerAt(s, a) && LiveOwnerAt(s, b);
    }
    if |owners| <= 1 {
      forall a, b | LiveOwnerAt(s, a) && LiveOwnerAt(s, b)
        ensures a == b
      {
        assert a in owners && b in owners;
        assert owners == {a, b} + (owners - {a, b});
      }
    }
  }

  method CheckRelationships(env: Env, s: Snapshot) returns (ok: bool)
    requires s.identity.Some?
    ensures ok <==> ValidRelationships(env, s)
  {
    var scanned, found := ScanRelationships(env, s);
    if !scanned { return false; }
    OwnersCounted(s);
    if found.owners > 1 { return false; }
    var backup := exists id :: id in s.relationships && LiveBackupAt(s, id);
    ok := !(backup && !found.authorized);
    if backup {
      ghost var b :| b in s.relationships && LiveBackupAt(s, b);
      assert found.authorized <==> exists o :: AuthorizedOwnerAt(s, o);
    }
  }

  // Serials.

  /** What has been claimed so far: each serial by one holder. */
  ghost predicate Claimed(s: Snapshot, holders: set<Holder>, serials: set<nat>) {
    && (forall h, n: nat :: h in holders && Holds(s, h, n) ==> n in serials)
    && (forall n: nat :: n in serials ==> exists h :: h in holders && Holds(s, h, n))
    && (forall h, k, n: nat :: h in holders && k in holders && Holds(s, h, n) && Holds(s, k, n) ==> h == k)
  }

  lemma ClaimOne(s: Snapshot, holders: set<Holder>, serials: set<nat>, h: Holder, n: nat)
    requires Claimed(s, holders, serials) && h !in holders && Holds(s, h, n)
    ensures n in serials ==> !DisjointSerials(s)
    ensures n !in serials ==> Claimed(s, holders + {h}, serials + {n})
  {
    var more, taken := holders + {h}, serials + {n};
    if n in serials {
      var k :| k in holders && Holds(s, k, n);
      assert h != k;
    } else {
      forall m: nat | m in taken
        ensures exists k :: k in more && Holds(s, k, m)
      {
        if m == n {
          assert h in more && Holds(s, h, m);
        } else {
          var k :| k in holders && Holds(s, k, m);
          assert k in more;
        }
      }
    }
  }

  /** The serial a holder has. */
  function SerialAt(s: Snapshot, h: Holder): nat {
    match h
    case TheCA => if s.activeCA.Some? then s.activeCA.value.serial else 0
    case IssuedLeaf(c) => if c in s.certificates then s.certificates[c].serial else 0
    case Reserved(g) => if g in s.pending then s.pending[g].serial else 0
    case Burned(n) => n
    case Cross(d) => if d in s.federations then s.federations[d].crossSerial else 0
    case RetiredCross(c) => if c in s.revocations then s.revocations[c].serial else 0
  }

  /** Claims a collection of serials one by one. */
  method ClaimAll(s: Snapshot, claims: set<Holder>, ghost holders: set<Holder>, serials: set<nat>)
    returns (ok: bool, taken: set<nat>)
    requires Claimed(s, holders, serials)
    requires forall h :: h in claims ==> h !in holders && Holds(s, h, SerialAt(s, h))
    ensures !ok ==> !DisjointSerials(s)
    ensures ok ==> Claimed(s, holders + claims, taken)
  {
    taken := serials;
    var done: set<Holder> := {};
    while claims - done != {}
      invariant done <= claims
      invariant Claimed(s, holders + done, taken)
      decreases claims - done
    {
      hide Claimed, DisjointSerials, Holds, SerialAt;
      var h :| h in claims - done;
      ClaimOne(s, holders + done, taken, h, SerialAt(s, h));
      if SerialAt(s, h) in taken { return false, taken; }
      taken := taken + {SerialAt(s, h)};
      assert holders + done + {h} == holders + (done + {h});
      done := done + {h};
    }
    assert done == claims;
    return true, taken;
  }

  function LeafClaims(s: Snapshot): (claims: set<Holder>)
    ensures forall h :: h in claims ==> h.IssuedLeaf? && Holds(s, h, SerialAt(s, h))
  {
    set c | c in s.certificates :: IssuedLeaf(c)
  }

  function PendingClaims(s: Snapshot): (claims: set<Holder>)
    ensures forall h :: h in claims ==> h.Reserved? && Holds(s, h, SerialAt(s, h))
  {
    set g | g in s.pending :: Reserved(g)
  }

  function BurnedClaims(s: Snapshot): (claims: set<Holder>)
    ensures forall h :: h in claims ==> h.Burned? && Holds(s, h, SerialAt(s, h))
  {
    set n | n in s.burned :: Burned(n)
  }

  function CrossClaims(s: Snapshot): (claims: set<Holder>)
    ensures forall h :: h in claims ==> h.Cross? && Holds(s, h, SerialAt(s, h))
  {
    set d | d in s.federations :: Cross(d)
  }

  function RetiredClaims(s: Snapshot): (claims: set<Holder>)
    ensures forall h :: h in claims ==> h.RetiredCross? && Holds(s, h, SerialAt(s, h))
  {
    set c | c in s.revocations && s.revocations[c].kind == CrossKind :: RetiredCross(c)
  }

  ghost function LeafHolders(s: Snapshot): (r: set<Holder>)
    ensures forall h :: h in r ==> h.TheCA? || h.IssuedLeaf? || h.Reserved?
  {
    (if s.activeCA.Some? then {TheCA} else {}) + LeafClaims(s) + PendingClaims(s)
  }

  ghost function AllHolders(s: Snapshot): set<Holder> {
    LeafHolders(s) + BurnedClaims(s) + CrossClaims(s) + RetiredClaims(s)
  }

  lemma NoOtherHolder(s: Snapshot, h: Holder, n: nat)
    requires Holds(s, h, n)
    ensures h in AllHolders(s)
  {
    match h
    case TheCA =>
    case IssuedLeaf(c) => assert h in LeafClaims(s);
    case Reserved(g) => assert h in PendingClaims(s);
    case Burned(b) => assert h in BurnedClaims(s);
    case Cross(d) => assert h in CrossClaims(s);
    case RetiredCross(c) => assert h in RetiredClaims(s);
  }

  lemma AllClaimed(s: Snapshot, serials: set<nat>)
    requires Claimed(s, AllHolders(s), serials)
    ensures DisjointSerials(s) <==> forall n :: n in serials ==> n < s.nextSerial
  {
    hide Holds, AllHolders;
    if forall n :: n in serials ==> n < s.nextSerial {
      forall h, n: nat | Holds(s, h, n)
        ensures h in AllHolders(s) && n < s.nextSerial
      {
        NoOtherHolder(s, h, n);
      }
    }
    if DisjointSerials(s) {
      forall n | n in serials
        ensures n < s.nextSerial
      {
        var h :| h in AllHolders(s) && Holds(s, h, n);
      }
    }
  }

  method ClaimLeaves(s: Snapshot) returns (ok: bool, serials: set<nat>)
    ensures !ok ==> !DisjointSerials(s)
    ensures ok ==> Claimed(s, LeafHolders(s), serials)
  {
    serials := if s.activeCA.Some? then {s.activeCA.value.serial} else {};
    ghost var holders := if s.activeCA.Some? then {TheCA} else {};
    assert Claimed(s, holders, serials);
    hide Claimed, DisjointSerials, Holds, LeafClaims, PendingClaims;
    ok, serials := ClaimAll(s, LeafClaims(s), holders, serials);
    if !ok { return; }
    ok, serials := ClaimAll(s, PendingClaims(s), holders + LeafClaims(s), serials);
  }

  /** Claims every serial of the document, one collection after the other. */
  method CheckSerials(s: Snapshot) returns (ok: bool)
    ensures ok <==> DisjointSerials(s)
  {
    hide Claimed, DisjointSerials, Holds, LeafHolders, BurnedClaims, CrossClaims, RetiredClaims;
    var serials;
    ok, serials := ClaimLeaves(s);
    if !ok { return; }
    ghost var holders := LeafHolders(s);
    ok, serials := ClaimAll(s, BurnedClaims(s), holders, serials);
    if !ok { return; }
    holders := holders + BurnedClaims(s);
    ok, serials := ClaimAll(s, CrossClaims(s), holders, serials);
    if !ok { return; }
    holders := holders + CrossClaims(s);
    ok, serials := ClaimAll(s, RetiredClaims(s), holders, serials);
    if !ok { return; }
    AllClaimed(s, serials);
    ok := forall n :: n in serials ==> n < s.nextSerial;
  }

  // Publications.

  ghost predicate HasSequence(s: Snapshot, done: set<Digest>, n: nat) {
    exists d :: d in done && d in s.published && s.published[d].sequence == n
  }

  ghost predicate HasTop(s: Snapshot, done: set<Digest>, sequence: nat, root: Bytes) {
    exists d :: d in done && d in s.published && s.published[d].sequence == sequence && s.published[d].root == root
  }

  /** What a pass over some completed publications has found: their sequences, all different, and the highest. */
  ghost predicate Highest(s: Snapshot, done: set<Digest>, sequences: set<nat>, sequence: nat, root: Bytes) {
    && done <= s.published.Keys
    && (forall d :: d in done ==> s.published[d].sequence in sequences)
    && (forall n :: n in sequences ==> n <= sequence && HasSequence(s, done, n))
    && (forall d, e :: d in done && e in done && s.published[d].sequence == s.published[e].sequence ==> d == e)
    && (if done == {} then sequence == 0 && root == [] else HasTop(s, done, sequence, root))
  }

  lemma SequencesGrow(s: Snapshot, done: set<Digest>, d: Digest, n: nat)
    requires HasSequence(s, done, n)
    ensures HasSequence(s, done + {d}, n)
  {
    var e :| e in done && e in s.published && s.published[e].sequence == n;
    assert e in done + {d};
  }

  lemma TopStays(s: Snapshot, done: set<Digest>, d: Digest, sequence: nat, root: Bytes)
    requires HasTop(s, done, sequence, root)
    ensures HasTop(s, done + {d}, sequence, root)
  {
    var e :| e in done && e in s.published && s.published[e].sequence == sequence && s.published[e].root == root;
    assert e in done + {d};
  }

  lemma NewTop(s: Snapshot, done: set<Digest>, d: Digest)
    requires d in s.published
    ensures HasTop(s, done + {d}, s.published[d].sequence, s.published[d].root)
    ensures HasSequence(s, done + {d}, s.published[d].sequence)
  {
    assert d in done + {d};
  }

  lemma HighestOneMore(s: Snapshot, done: set<Digest>, sequences: set<nat>, sequence: nat, root: Bytes, d: Digest)
    requires Highest(s, done, sequences, sequence, root) && d in s.published && d !in done
    requires s.published[d].sequence != 0
    requires s.published[d].sequence !in sequences
    ensures var p := s.published[d];
            var higher := p.sequence > sequence;
            Highest(s, done + {d}, sequences + {p.sequence}, if higher then p.sequence else sequence,
                    if higher then p.root else root)
  {
    hide HasSequence, HasTop;
    var p := s.published[d];
    NewTop(s, done, d);
    forall n | n in sequences
      ensures HasSequence(s, done + {d}, n)
    {
      SequencesGrow(s, done, d, n);
    }
    if p.sequence <= sequence { TopStays(s, done, d, sequence, root); }
  }

  lemma SequenceTaken(env: Env, s: Snapshot, done: set<Digest>, d: Digest)
    requires d in s.published && d !in done && HasSequence(s, done, s.published[d].sequence)
    ensures !ValidPublished(env, s)
  {
    var e :| e in done && e in s.published && s.published[e].sequence == s.published[d].sequence;
  }

  method CheckPublished(env: Env, s: Snapshot) returns (ok: bool)
    ensures ok <==> ValidPublished(env, s)
  {
    hide ValidPublished, HasSequence, HasTop;
    var maximumSequence: nat, maximumRoot: Bytes := 0, [];
    var sequences: set<nat> := {};
    var done: set<Digest> := {};
    while s.published.Keys - done != {}
      invariant done <= s.published.Keys
      invariant forall d :: d in done ==> ValidPublishedRecord(env, d, s.published[d])
      invariant Highest(s, done, sequences, maximumSequence, maximumRoot)
      decreases s.published.Keys - done
    {
      var d :| d in s.published.Keys - done;
      var p := s.published[d];
      if !ValidPublishedRecord(env, d, p) {
        InvalidRecord(env, s, d);
        return false;
      }
      if p.sequence in sequences {
        SequenceTaken(env, s, done, d);
        return false;
      }
      HighestOneMore(s, done, sequences, maximumSequence, maximumRoot, d);
      sequences := sequences + {p.sequence};
      if p.sequence > maximumSequence {
        maximumSequence, maximumRoot := p.sequence, p.root;
      }
      done := done + {d};
    }
    assert done == s.published.Keys;
    HighestIsLast(env, s, sequences, maximumSequence, maximumRoot);
    ok := maximumSequence == s.lastSequence && maximumRoot == s.lastRoot;
  }

  lemma InvalidRecord(env: Env, s: Snapshot, d: Digest)
    requires d in s.published && !ValidPublishedRecord(env, d, s.published[d])
    ensures !ValidPublished(env, s)
  {
  }

  lemma HighestIsLast(env: Env, s: Snapshot, sequences: set<nat>, sequence: nat, root: Bytes)
    requires Highest(s, s.published.Keys, sequences, sequence, root)
    requires forall d :: d in s.published ==> ValidPublishedRecord(env, d, s.published[d])
    ensures (sequence == s.lastSequence && root == s.lastRoot) <==> ValidPublished(env, s)
  {
    if s.published.Keys != {} {
      var d :| d in s.published && s.published[d].sequence == sequence && s.published[d].root == root;
    }
  }

  // The whole document.

  /** Decides whether a document is valid. */
  method CheckSnapshot(env: Env, s: Snapshot) returns (ok: bool)
    ensures ok <==> ValidSnapshot(env, s)
  {
    hide ValidCA, ValidRelationships, ValidLeaves, ValidRevocations, DisjointSerials, ValidFederations, ValidPublished;
    hide ValidOutbox, ValidBundles, ValidPendings, ValidBurned, ValidGrants;
    if s.version != STATE_VERSION || s.nextSerial == 0 || !WithinBounds(s) { return false; }
    if s.revision == 0 { return s == EMPTY; }
    if s.identity.None? || !env.canonical(s.identity.value) { return false; }
    if !ValidCA(s) { return false; }
    var relationships := CheckRelationships(env, s);
    if !relationships { return false; }
    if !ValidLeaves(s) || !ValidPendings(env, s) || !ValidBurned(s) || !ValidRevocations(env, s) { return false; }
    var serials := CheckSerials(s);
    if !serials { return false; }
    if !ValidFederations(env, s) || !ValidBundles(env, s) || !ValidGrants(s) || !ValidOutbox(env, s) { return false; }
    var published := CheckPublished(env, s);
    return published;
  }
}
