/** The durable key metadata against the TPM's contents: what every step of the manager keeps, and what a
    whole history of saved snapshots therefore means. */
module KeyProtocol {
  import opened Common
  import opened KeyTypes

  // ---------------------------------------------------------------- snapshot validity

  /** The handle belongs to the role's pool. */
  predicate InPool(c: Config, role: Role, handle: Handle) {
    role in c.policies && handle in c.policies[role].handles
  }

  /** The stored metadata is complete and is what the role's policy allows. */
  predicate ValidMetadata(c: Config, role: Role, m: KeyMetadata) {
    && InPool(c, role, m.handle)
    && m.role == role && m.role == c.policies[role].role
    && m.purpose == c.policies[role].purpose && m.algorithm == c.policies[role].algorithm
    && SigningTemplate(c.policies[role].algorithm) == Some(m.template)
    && m.generation != 0 && m.createdAt != 0 && m.publicName != "" && m.publicKeyDER != ""
  }

  predicate HasHandle(ms: seq<KeyMetadata>, handle: Handle) {
    exists i :: 0 <= i < |ms| && ms[i].handle == handle
  }

  /** The handle of the active object or of a superseded one. */
  predicate Holds(state: RoleState, handle: Handle) {
    state.active.handle == handle || HasHandle(state.retiring, handle)
  }

  predicate DistinctHandles(ms: seq<KeyMetadata>) {
    forall i, j :: 0 <= i < j < |ms| ==> ms[i].handle != ms[j].handle
  }

  predicate Lifetime(c: Config, role: Role) {
    role in c.policies && IsLifetime(role, c.policies[role])
  }

  predicate ValidRoleState(c: Config, role: Role, state: RoleState) {
    && ValidMetadata(c, role, state.active)
    && (Lifetime(c, role) ==> state.active.generation == 1 && state.retiring == [])
    && (forall i :: 0 <= i < |state.retiring| ==>
          && ValidMetadata(c, role, state.retiring[i])
          && state.retiring[i].generation < state.active.generation
          && state.retiring[i].handle != state.active.handle)
    && DistinctHandles(state.retiring)
  }

  predicate ValidPending(c: Config, s: Snapshot, role: Role, m: KeyMetadata) {
    && ValidMetadata(c, role, m)
    && (Lifetime(c, role) ==> role !in s.roles && m.generation == 1)
    && (role !in s.roles ==> m.generation == 1)
    && (role in s.roles ==>
          && s.roles[role].active.generation != MAX_UINT64
          && m.generation == s.roles[role].active.generation + 1
          && !Holds(s.roles[role], m.handle))
  }

  /** What loading a snapshot demands of it. */
  predicate ValidSnapshot(c: Config, s: Snapshot) {
    && s.version == METADATA_VERSION
    && (forall role :: role in s.roles ==> ValidRoleState(c, role, s.roles[role]))
    && (forall role :: role in s.pending ==> ValidPending(c, s, role, s.pending[role]))
  }

  // ---------------------------------------------------------------- agreement with the TPM

  type Objects = map<Handle, Public>

  /** The live object at a handle is the recorded one. */
  predicate SameObject(m: KeyMetadata, public: Public) {
    && public.handle == m.handle
    && public.template == m.template
    && public.name == m.publicName
    && CanonicalPublicKey(public) == Some(m.publicKeyDER)
  }

  predicate Live(o: Objects, m: KeyMetadata) {
    m.handle in o && SameObject(m, o[m.handle])
  }

  predicate GoneOrLive(o: Objects, m: KeyMetadata) {
    m.handle in o ==> SameObject(m, o[m.handle])
  }

  predicate Records(s: Snapshot, role: Role, handle: Handle) {
    || (role in s.roles && Holds(s.roles[role], handle))
    || (role in s.pending && s.pending[role].handle == handle)
  }

  predicate Agrees(s: Snapshot, o: Objects) {
    && (forall role :: role in s.roles ==> Live(o, s.roles[role].active))
    && (forall role, i :: role in s.roles && 0 <= i < |s.roles[role].retiring| ==>
          GoneOrLive(o, s.roles[role].retiring[i]))
    && (forall role :: role in s.pending ==> GoneOrLive(o, s.pending[role]))
  }

  /** Every TPM object at a pool handle is accounted for in the metadata. */
  ghost predicate NoOrphans(c: Config, s: Snapshot, o: Objects) {
    forall role, h :: InPool(c, role, h) && h in o ==> Records(s, role, h)
  }

  predicate HasRetiring(s: Snapshot) {
    exists role :: role in s.roles && s.roles[role].retiring != []
  }

  /** Over all roles together, at most one pending or retiring entry. */
  predicate AtMostOneUnsettled(s: Snapshot) {
    && |s.pending| <= 1
    && (forall role :: role in s.roles ==> |s.roles[role].retiring| <= 1)
    && (forall r1, r2 :: r1 in s.roles && r2 in s.roles && s.roles[r1].retiring != [] && s.roles[r2].retiring != [] ==>
          r1 == r2)
    && (s.pending != map[] ==> !HasRetiring(s))
  }

  /** Some pending key is to replace an active one. */
  predicate Replaces(s: Snapshot) {
    exists role :: role in s.pending && role in s.roles
  }

  /** The number of saves recovery may still need: adopting a replacement leaves its predecessor to retire. */
  function RecoverySaves(s: Snapshot): nat {
    if s.pending != map[] then
      if Replaces(s) then 2 else 1
    else if HasRetiring(s) then 1
    else 0
  }

  ghost predicate Inv(c: Config, s: Snapshot, o: Objects) {
    && ValidSnapshot(c, s)
    && AtMostOneUnsettled(s)
    && Agrees(s, o)
    && NoOrphans(c, s, o)
    && s.revision + RecoverySaves(s) <= MAX_UINT64
  }

  /** The revision recovery will have reached at the latest. */
  function RecoveryEnds(s: Snapshot): nat {
    s.revision + RecoverySaves(s)
  }

  /** The active key a role has once recovery is done: a pending one whose object was created, else the one it had. */
  function RecoveredActive(s: Snapshot, o: Objects, role: Role): Option<KeyMetadata> {
    if role in s.pending && s.pending[role].handle in o then Some(s.pending[role])
    else if role in s.roles then Some(s.roles[role].active)
    else None
  }

  /** The roles with an active key, and these keys, are the ones recovery from `s` and `o` ends with. */
  ghost predicate HasRecovered(s: Snapshot, o: Objects, s': Snapshot) {
    forall role ::
      RecoveredActive(s, o, role) == if role in s'.roles then Some(s'.roles[role].active) else None
  }

  /** Nothing left to recover. */
  predicate Settled(s: Snapshot) {
    s.pending == map[] && !HasRetiring(s)
  }

  /** A settled snapshot accounts for the pools exactly: an object is there if and only if it is some role's active
      one. */
  lemma SettledMeansExact(c: Config, s: Snapshot, o: Objects)
    requires Inv(c, s, o) && Settled(s)
    ensures forall role, h :: InPool(c, role, h) ==> (h in o <==> role in s.roles && s.roles[role].active.handle == h)
    ensures forall role :: role in s.roles ==> Live(o, s.roles[role].active)
  {
    forall role, h | InPool(c, role, h) && h in o ensures role in s.roles && s.roles[role].active.handle == h {
      assert Records(s, role, h);
      assert s.roles[role].retiring == [];
    }
  }

  lemma InitiallyInv(c: Config, o: Objects)
    requires forall role, h :: InPool(c, role, h) ==> h !in o
    ensures Inv(c, EmptySnapshot(), o) && Settled(EmptySnapshot())
  {
  }

  // ---------------------------------------------------------------- the saves

  /** Records the intent to create a key, before it exists. */
  function WithPending(s: Snapshot, role: Role, m: KeyMetadata): Snapshot {
    s.(revision := s.revision + 1, pending := s.pending[role := m])
  }

  function Succeeded(s: Snapshot, role: Role, m: KeyMetadata): RoleState {
    RoleState(m, if role in s.roles then s.roles[role].retiring + [s.roles[role].active] else [])
  }

  /** Makes the role's created key active, and its predecessor, if any, retiring. */
  function Activated(s: Snapshot, role: Role, m: KeyMetadata): Snapshot {
    s.(revision := s.revision + 1, roles := s.roles[role := Succeeded(s, role, m)], pending := s.pending - {role})
  }

  /** Recovery of one pending entry: adopted if its object was created, dropped if it was not. */
  function ResolveOne(s: Snapshot, role: Role, o: Objects): Snapshot {
    if role !in s.pending then s
    else if s.pending[role].handle in o then
      s.(roles := s.roles[role := Succeeded(s, role, s.pending[role])], pending := s.pending - {role})
    else s.(pending := s.pending - {role})
  }

  /** Recovery of the pending entries of the listed roles, in order. */
  function ResolveAll(s: Snapshot, order: seq<Role>, o: Objects): Snapshot {
    if order == [] then s
    else ResolveOne(ResolveAll(s, order[..|order| - 1], o), order[|order| - 1], o)
  }

  function ClearOne(s: Snapshot, role: Role): Snapshot {
    if role in s.roles && s.roles[role].retiring != [] then
      s.(roles := s.roles[role := s.roles[role].(retiring := [])])
    else s
  }

  /** The snapshot without the retiring entries of the listed roles. */
  function ClearAll(s: Snapshot, order: seq<Role>): Snapshot {
    if order == [] then s
    else ClearOne(ClearAll(s, order[..|order| - 1]), order[|order| - 1])
  }

  function Saved(s: Snapshot): Snapshot {
    s.(revision := s.revision + 1)
  }

  // ---------------------------------------------------------------- what each step keeps

  lemma OnlyPending(s: Snapshot, role: Role)
    requires |s.pending| <= 1 && role in s.pending
    ensures s.pending == map[role := s.pending[role]]
    ensures s.pending - {role} == map[]
  {
    forall other | other in s.pending ensures other == role {
      if other != role {
        assert |{other, role}| == 2;
        SubsetSize({other, role}, s.pending.Keys);
      }
    }
  }

  lemma SubsetSize<T>(a: set<T>, b: set<T>)
    requires a <= b
    ensures |a| <= |b|
  {
    assert b == a + (b - a);
  }

  lemma PendingKeepsValid(c: Config, s: Snapshot, role: Role, m: KeyMetadata)
    requires ValidSnapshot(c, s) && s.pending == map[] && ValidPending(c, s, role, m)
    ensures ValidSnapshot(c, WithPending(s, role, m))
  {
    var s' := WithPending(s, role, m);
    assert ValidPending(c, s', role, m);
  }

  lemma PendingKeepsAccount(c: Config, s: Snapshot, o: Objects, role: Role, m: KeyMetadata)
    requires NoOrphans(c, s, o) && s.pending == map[]
    ensures NoOrphans(c, WithPending(s, role, m), o)
  {
    var s' := WithPending(s, role, m);
    forall r, h | InPool(c, r, h) && h in o ensures Records(s', r, h) {
      assert Records(s, r, h);
    }
  }

  lemma PendingAgrees(s: Snapshot, o: Objects, role: Role, m: KeyMetadata)
    requires Agrees(s, o) && m.handle !in o
    ensures Agrees(WithPending(s, role, m), o)
  {
  }

  /** Recording an intent for a free handle keeps the invariant; the space check left room for the recovery it may
      need. */
  lemma PendingKeepsInv(c: Config, s: Snapshot, o: Objects, role: Role, m: KeyMetadata)
    requires Inv(c, s, o) && Settled(s)
    requires ValidPending(c, s, role, m) && m.handle !in o
    requires s.revision + (if role in s.roles then 3 else 2) <= MAX_UINT64
    ensures Inv(c, WithPending(s, role, m), o)
  {
    hide ValidSnapshot, ValidPending, Agrees, NoOrphans;
    PendingKeepsValid(c, s, role, m);
    PendingKeepsAccount(c, s, o, role, m);
    PendingAgrees(s, o, role, m);
    var s' := WithPending(s, role, m);
    assert s'.pending == map[role := m];
    assert RecoverySaves(s') == if role in s.roles then 2 else 1;
  }

  predicate NoActiveAt(s: Snapshot, handle: Handle) {
    forall r :: r in s.roles ==> s.roles[r].active.handle != handle
  }

  lemma CreatedKeepsAgreement(s: Snapshot, o: Objects, role: Role, public: Public)
    requires Agrees(s, o) && NoActiveAt(s, public.handle)
    requires |s.pending| <= 1 && !HasRetiring(s)
    requires role in s.pending && SameObject(s.pending[role], public)
    ensures Agrees(s, o[public.handle := public])
  {
    OnlyPending(s, role);
    forall r | r in s.roles ensures Live(o[public.handle := public], s.roles[r].active) { }
    assert forall r :: r in s.roles ==> s.roles[r].retiring == [];
  }

  lemma CreatedKeepsAccount(c: Config, s: Snapshot, o: Objects, role: Role, public: Public)
    requires ValidConfig(c) && ValidSnapshot(c, s) && NoOrphans(c, s, o)
    requires role in s.pending && s.pending[role].handle == public.handle
    ensures NoOrphans(c, s, o[public.handle := public])
  {
    forall r, h | InPool(c, r, h) && h in o[public.handle := public] ensures Records(s, r, h) {
      if h == public.handle {
        assert ValidPending(c, s, role, s.pending[role]);
        OwnPool(c, role, r, h);
      } else {
        assert h in o;
      }
    }
  }

  /** Persisting the object of the recorded intent keeps the invariant. */
  lemma CreatedKeepsInv(c: Config, s: Snapshot, o: Objects, role: Role, public: Public)
    requires ValidConfig(c) && Inv(c, s, o)
    requires role in s.pending && SameObject(s.pending[role], public)
    ensures Inv(c, s, o[public.handle := public])
  {
    ActivesApart(c, s, role);
    CreatedKeepsAgreement(s, o, role, public);
    CreatedKeepsAccount(c, s, o, role, public);
  }

  /** Handles belong to one role's pool. */
  lemma OwnPool(c: Config, r1: Role, r2: Role, h: Handle)
    requires ValidConfig(c)
    requires InPool(c, r1, h) && InPool(c, r2, h)
    ensures r1 == r2
  {
    assert r1 != r2 ==> SeparatedPools(c.policies[r1], c.policies[r2]);
  }

  /** A pending object never shares its handle with an active one. */
  lemma ActivesApart(c: Config, s: Snapshot, role: Role)
    requires ValidConfig(c) && ValidSnapshot(c, s) && role in s.pending
    ensures NoActiveAt(s, s.pending[role].handle)
  {
    assert ValidPending(c, s, role, s.pending[role]);
    forall r | r in s.roles ensures s.roles[r].active.handle != s.pending[role].handle {
      assert ValidRoleState(c, r, s.roles[r]);
      if s.roles[r].active.handle == s.pending[role].handle {
        OwnPool(c, role, r, s.roles[r].active.handle);
      }
    }
  }

  lemma RemovalKeepsAgreement(s: Snapshot, o: Objects, handle: Handle)
    requires Agrees(s, o) && NoActiveAt(s, handle)
    ensures Agrees(s, o - {handle})
  {
    forall r | r in s.roles ensures Live(o - {handle}, s.roles[r].active) { }
    forall r, i | r in s.roles && 0 <= i < |s.roles[r].retiring|
      ensures GoneOrLive(o - {handle}, s.roles[r].retiring[i]) { }
    forall r | r in s.pending ensures GoneOrLive(o - {handle}, s.pending[r]) { }
  }

  /** Taking the pending object away again, as a failed creation does, keeps the invariant. */
  lemma UncreatedKeepsInv(c: Config, s: Snapshot, o: Objects, role: Role)
    requires ValidConfig(c) && Inv(c, s, o) && role in s.pending
    ensures Inv(c, s, o - {s.pending[role].handle})
  {
    ActivesApart(c, s, role);
    RemovalKeepsAgreement(s, o, s.pending[role].handle);
  }

  /** The state an activation gives its role. */
  lemma ActivatedState(c: Config, s: Snapshot, role: Role)
    requires ValidSnapshot(c, s) && AtMostOneUnsettled(s) && role in s.pending
    ensures var s' := Activated(s, role, s.pending[role]);
            && s'.pending == map[]
            && s'.roles[role].retiring == (if role in s.roles then [s.roles[role].active] else [])
            && ValidRoleState(c, role, s'.roles[role])
    ensures role in s.roles ==> s.roles[role].retiring == []
  {
    OnlyPending(s, role);
    var m := s.pending[role];
    var state := Succeeded(s, role, m);
    assert ValidPending(c, s, role, m);
    assert role in s.roles ==> ValidRoleState(c, role, s.roles[role]);
  }

  lemma ActivateKeepsUnsettled(s: Snapshot, s': Snapshot, role: Role)
    requires AtMostOneUnsettled(s) && role in s.pending
    requires s'.pending == map[] && role in s'.roles && |s'.roles[role].retiring| <= 1
    requires s'.roles == s.roles[role := s'.roles[role]]
    ensures AtMostOneUnsettled(s')
    ensures s'.roles[role].retiring == [] ==> !HasRetiring(s')
  {
    assert forall r :: r in s'.roles && r != role ==> s'.roles[r] == s.roles[r];
  }

  lemma ActivateKeepsAccount(c: Config, s: Snapshot, o: Objects, role: Role)
    requires ValidSnapshot(c, s) && AtMostOneUnsettled(s) && role in s.pending
    requires NoOrphans(c, s, o)
    ensures NoOrphans(c, Activated(s, role, s.pending[role]), o)
  {
    ActivatedState(c, s, role);
    var s' := Activated(s, role, s.pending[role]);
    forall r, h | InPool(c, r, h) && h in o ensures Records(s', r, h) {
      assert Records(s, r, h);
      if r == role && h != s.pending[role].handle {
        assert s'.roles[r].retiring[0].handle == h;
      }
    }
  }

  lemma ActivateKeepsAgreement(s: Snapshot, o: Objects, role: Role)
    requires Agrees(s, o) && AtMostOneUnsettled(s)
    requires role in s.pending && Live(o, s.pending[role])
    ensures Agrees(Activated(s, role, s.pending[role]), o)
  {
    OnlyPending(s, role);
    assert role in s.roles ==> s.roles[role].retiring == [];
  }

  lemma ActivateKeepsValid(c: Config, s: Snapshot, role: Role)
    requires ValidSnapshot(c, s) && AtMostOneUnsettled(s) && role in s.pending
    ensures ValidSnapshot(c, Activated(s, role, s.pending[role]))
  {
    ActivatedState(c, s, role);
  }

  /** Activating the created object keeps the invariant and uses up one save of the recovery budget. */
  lemma ActivateKeepsInv(c: Config, s: Snapshot, o: Objects, role: Role)
    requires Inv(c, s, o)
    requires role in s.pending && Live(o, s.pending[role])
    ensures Inv(c, Activated(s, role, s.pending[role]), o)
    ensures Activated(s, role, s.pending[role]).pending == map[]
  {
    var s' := Activated(s, role, s.pending[role]);
    ActivatedState(c, s, role);
    ActivateKeepsValid(c, s, role);
    ActivateKeepsUnsettled(s, s', role);
    ActivateKeepsAgreement(s, o, role);
    ActivateKeepsAccount(c, s, o, role);
    assert Replaces(s) <== role in s.roles;
  }

  lemma DropKeepsAccount(c: Config, s: Snapshot, o: Objects, role: Role)
    requires NoOrphans(c, s, o)
    requires role in s.pending && s.pending[role].handle !in o
    ensures NoOrphans(c, Saved(ResolveOne(s, role, o)), o)
  {
    forall r, h | InPool(c, r, h) && h in o ensures Records(Saved(ResolveOne(s, role, o)), r, h) {
      assert Records(s, r, h);
    }
  }

  /** A settled state needs no further save to recover. */
  lemma SettledIsInv(c: Config, s: Snapshot, o: Objects)
    requires ValidSnapshot(c, s) && Settled(s) && Agrees(s, o) && NoOrphans(c, s, o) && s.revision <= MAX_UINT64
    ensures Inv(c, s, o)
  {
    hide ValidSnapshot, Agrees, NoOrphans;
  }

  lemma DropKeepsValid(c: Config, s: Snapshot, o: Objects, role: Role)
    requires ValidSnapshot(c, s) && Agrees(s, o) && role in s.pending && s.pending[role].handle !in o
    ensures ValidSnapshot(c, Saved(ResolveOne(s, role, o))) && Agrees(Saved(ResolveOne(s, role, o)), o)
  {
    hide ValidRoleState, ValidMetadata;
  }

  /** Dropping an intent whose object was never created keeps the invariant, and settles the snapshot. */
  lemma DropKeepsInv(c: Config, s: Snapshot, o: Objects, role: Role)
    requires Inv(c, s, o)
    requires role in s.pending && s.pending[role].handle !in o
    ensures Inv(c, Saved(ResolveOne(s, role, o)), o)
    ensures Settled(Saved(ResolveOne(s, role, o)))
  {
    hide ValidSnapshot, Agrees, NoOrphans;
    OnlyPending(s, role);
    DropKeepsAccount(c, s, o, role);
    DropKeepsValid(c, s, o, role);
    SettledIsInv(c, Saved(ResolveOne(s, role, o)), o);
  }

  /** Evicting a superseded object keeps the invariant. */
  lemma EvictKeepsInv(c: Config, s: Snapshot, o: Objects, role: Role, i: nat)
    requires ValidConfig(c) && Inv(c, s, o)
    requires role in s.roles && i < |s.roles[role].retiring|
    ensures Inv(c, s, o - {s.roles[role].retiring[i].handle})
  {
    var h0 := s.roles[role].retiring[i].handle;
    assert NoActiveAt(s, h0) by {
      assert ValidRoleState(c, role, s.roles[role]);
      forall r | r in s.roles ensures s.roles[r].active.handle != h0 {
        assert ValidRoleState(c, r, s.roles[r]);
        if s.roles[r].active.handle == h0 {
          OwnPool(c, role, r, h0);
        }
      }
    }
    RemovalKeepsAgreement(s, o, h0);
  }

  predicate RetiringGone(s: Snapshot, o: Objects, role: Role) {
    role in s.roles ==> forall i :: 0 <= i < |s.roles[role].retiring| ==> s.roles[role].retiring[i].handle !in o
  }

  lemma ClearKeepsAccount(c: Config, s: Snapshot, o: Objects, role: Role)
    requires NoOrphans(c, s, o)
    requires role in s.roles && s.roles[role].retiring != [] && RetiringGone(s, o, role)
    ensures NoOrphans(c, ClearOne(s, role), o)
  {
    var s' := ClearOne(s, role);
    forall r, h | InPool(c, r, h) && h in o ensures Records(s', r, h) {
      assert Records(s, r, h);
    }
  }

  lemma ClearKeepsValid(c: Config, s: Snapshot, role: Role)
    requires ValidSnapshot(c, s) && s.pending == map[] && role in s.roles
    ensures ValidSnapshot(c, Saved(ClearOne(s, role)))
  {
    assert ValidRoleState(c, role, s.roles[role]);
  }

  lemma ClearAgrees(s: Snapshot, o: Objects, role: Role)
    requires Agrees(s, o) && s.pending == map[]
    ensures Agrees(Saved(ClearOne(s, role)), o)
  {
  }

  lemma ClearSettles(s: Snapshot, role: Role)
    requires AtMostOneUnsettled(s) && role in s.roles && s.roles[role].retiring != []
    ensures s.pending == map[] && Settled(Saved(ClearOne(s, role)))
  {
    assert HasRetiring(s);
  }

  /** Forgetting retiring entries whose objects are gone keeps the invariant, and settles the snapshot. */
  lemma ClearKeepsInv(c: Config, s: Snapshot, o: Objects, role: Role)
    requires Inv(c, s, o)
    requires role in s.roles && s.roles[role].retiring != [] && RetiringGone(s, o, role)
    ensures Inv(c, Saved(ClearOne(s, role)), o)
    ensures Settled(Saved(ClearOne(s, role)))
  {
    hide ValidSnapshot, Agrees, NoOrphans, AtMostOneUnsettled, Settled;
    ClearSettles(s, role);
    ClearKeepsValid(c, s, role);
    ClearAgrees(s, o, role);
    ClearKeepsAccount(c, s, o, role);
    SavedKeepsAccount(c, ClearOne(s, role), o);
    assert HasRetiring(s);
    SettledIsInv(c, Saved(ClearOne(s, role)), o);
  }

  lemma SavedKeepsAccount(c: Config, s: Snapshot, o: Objects)
    requires NoOrphans(c, s, o)
    ensures NoOrphans(c, Saved(s), o)
  {
    forall r, h | InPool(c, r, h) && h in o ensures Records(Saved(s), r, h) {
      assert Records(s, r, h);
    }
  }

  /** With at most one pending entry, a whole recovery pass comes down to that entry. */
  lemma ResolveAllIsResolveOne(s: Snapshot, order: seq<Role>, o: Objects, role: Role)
    requires |s.pending| <= 1 && role in s.pending
    ensures ResolveAll(s, order, o) == if role in order then ResolveOne(s, role, o) else s
  {
    OnlyPending(s, role);
    if order != [] {
      var front, last := order[..|order| - 1], order[|order| - 1];
      assert order == front + [last];
      ResolveAllIsResolveOne(s, front, o, role);
    }
  }

  /** With at most one role retiring, a whole clean-up pass comes down to that role. */
  lemma ClearAllIsClearOne(s: Snapshot, order: seq<Role>, role: Role)
    requires role in s.roles && s.roles[role].retiring != []
    requires forall r :: r in s.roles && s.roles[r].retiring != [] ==> r == role
    ensures ClearAll(s, order) == if role in order then ClearOne(s, role) else s
  {
    if order != [] {
      var front, last := order[..|order| - 1], order[|order| - 1];
      assert order == front + [last];
      ClearAllIsClearOne(s, front, role);
    }
  }

  lemma PendingIsRecorded(c: Config, s: Snapshot, o: Objects, role: Role)
    requires Inv(c, s, o) && role in s.pending
    ensures |s.pending| <= 1 && ValidSnapshot(c, s) && GoneOrLive(o, s.pending[role])
  {
    hide ValidSnapshot;
  }

  /** Saving the recovery of the one pending entry keeps the invariant. */
  lemma ResolveOneKeepsInv(c: Config, s: Snapshot, o: Objects, role: Role)
    requires ValidConfig(c) && Inv(c, s, o) && role in s.pending
    ensures var s' := Saved(ResolveOne(s, role, o));
            Inv(c, s', o) && s'.pending == map[] && KeyStep(c, s, s')
  {
    hide Inv, ValidSnapshot, ValidConfig, KeyStep;
    PendingIsRecorded(c, s, o, role);
    OnlyPending(s, role);
    if s.pending[role].handle in o {
      assert Saved(ResolveOne(s, role, o)) == Activated(s, role, s.pending[role]);
      ActivateKeepsInv(c, s, o, role);
      ActivateIsKeyStep(c, s, role);
    } else {
      DropKeepsInv(c, s, o, role);
      DropIsKeyStep(c, s, role, o);
    }
  }

  /** Saving a whole recovery pass keeps the invariant, and leaves nothing pending. */
  lemma ResolveAllKeepsInv(c: Config, s: Snapshot, o: Objects)
    requires ValidConfig(c) && Inv(c, s, o) && s.pending != map[]
    ensures var s' := Saved(ResolveAll(s, c.order, o));
            Inv(c, s', o) && s'.pending == map[] && KeyStep(c, s, s')
  {
    var role :| role in s.pending;
    assert |s.pending| <= 1 && ValidPending(c, s, role, s.pending[role]);
    assert role in c.order;
    hide Inv, ValidSnapshot, ValidConfig, KeyStep, ResolveAll, ResolveOne;
    ResolveAllIsResolveOne(s, c.order, o, role);
    ResolveOneKeepsInv(c, s, o, role);
  }

  /** Recovering the one pending entry leaves its role with the recovered key, and the other roles with theirs. */
  lemma ResolveOneRecovers(s: Snapshot, o: Objects, role: Role)
    requires |s.pending| <= 1 && role in s.pending
    ensures HasRecovered(s, o, Saved(ResolveOne(s, role, o)))
  {
    OnlyPending(s, role);
  }

  /** Adopting a replacement uses one of two saves, and any other recovery of a pending entry the only one. */
  lemma ResolveOneSaves(s: Snapshot, o: Objects, role: Role)
    requires |s.pending| <= 1 && role in s.pending && !HasRetiring(s)
    ensures RecoveryEnds(Saved(ResolveOne(s, role, o))) <= RecoveryEnds(s)
  {
    OnlyPending(s, role);
    var s' := Saved(ResolveOne(s, role, o));
    if role !in s.roles || s.pending[role].handle !in o {
      forall r | r in s'.roles ensures s'.roles[r].retiring == [] { }
      assert Settled(s');
    } else {
      assert Replaces(s);
    }
  }

  /** A whole recovery pass ends with the recovered keys, and uses one of the saves there was room for. */
  lemma ResolveAllRecovers(c: Config, s: Snapshot, o: Objects)
    requires ValidConfig(c) && Inv(c, s, o) && s.pending != map[]
    ensures var s' := Saved(ResolveAll(s, c.order, o));
            HasRecovered(s, o, s') && RecoveryEnds(s') <= RecoveryEnds(s)
  {
    hide Agrees, NoOrphans, ResolveAll, ResolveOne, HasRecovered, RecoverySaves, HasRetiring;
    var role :| role in s.pending;
    assert ValidPending(c, s, role, s.pending[role]);
    assert role in c.order;
    ResolveAllIsResolveOne(s, c.order, o, role);
    ResolveOneRecovers(s, o, role);
    ResolveOneSaves(s, o, role);
  }

  /** Saving a whole clean-up pass keeps the invariant, and settles the snapshot. */
  lemma ClearAllKeepsInv(c: Config, s: Snapshot, o: Objects)
    requires ValidConfig(c) && Inv(c, s, o) && HasRetiring(s)
    requires forall role :: role in s.roles ==> RetiringGone(s, o, role)
    ensures var s' := Saved(ClearAll(s, c.order));
            Inv(c, s', o) && Settled(s') && KeyStep(c, s, s') && RecoveryEnds(s') <= RecoveryEnds(s)
  {
    var role :| role in s.roles && s.roles[role].retiring != [];
    assert ValidRoleState(c, role, s.roles[role]);
    assert role in c.order;
    ClearAllIsClearOne(s, c.order, role);
    ClearKeepsInv(c, s, o, role);
    ClearIsKeyStep(c, s, role);
  }

  /** What recovery relies on: revisions for all its saves, and objects that are the recorded ones where they exist. */
  lemma Recoverable(c: Config, s: Snapshot, o: Objects)
    requires Inv(c, s, o)
    ensures s.version == METADATA_VERSION
    ensures RecoveryEnds(s) <= MAX_UINT64
    ensures !Settled(s) ==> s.revision < RecoveryEnds(s)
    ensures forall role :: role in s.pending ==> GoneOrLive(o, s.pending[role])
  {
  }

  lemma RetiringIsRecorded(c: Config, s: Snapshot, o: Objects, role: Role, i: nat)
    requires Inv(c, s, o) && role in s.roles && i < |s.roles[role].retiring|
    ensures GoneOrLive(o, s.roles[role].retiring[i])
  {
  }

  lemma ActiveIsRecorded(c: Config, s: Snapshot, o: Objects, role: Role)
    requires Inv(c, s, o) && role in s.roles
    ensures Live(o, s.roles[role].active)
  {
  }

  // ---------------------------------------------------------------- creating a key

  /** The metadata recorded for a prepared candidate. */
  function NewMetadata(policy: RolePolicy, candidate: Public, publicKeyDER: string, createdAt: nat,
                       generation: nat): KeyMetadata {
    KeyMetadata(policy.role, policy.purpose, policy.algorithm, candidate.handle, candidate.name, publicKeyDER,
                candidate.template, createdAt, generation)
  }

  /** A key of this generation may be created for the role at this handle, with room for the saves it can lead to. */
  predicate MayCreate(c: Config, s: Snapshot, o: Objects, role: Role, handle: Handle, generation: nat) {
    && InPool(c, role, handle) && handle !in o
    && (role !in s.roles ==> generation == 1 && s.revision + 2 <= MAX_UINT64)
    && (role in s.roles ==>
          && !Lifetime(c, role)
          && s.roles[role].active.generation != MAX_UINT64
          && generation == s.roles[role].active.generation + 1
          && s.revision + 3 <= MAX_UINT64)
  }

  /** A well-formed candidate for a free handle of the right pool makes a valid creation intent. */
  lemma CandidateIsValidPending(
    c: Config, s: Snapshot, o: Objects, role: Role, candidate: Public, der: string, createdAt: nat, generation: nat)
    requires ValidConfig(c) && Inv(c, s, o) && Settled(s)
    requires MayCreate(c, s, o, role, candidate.handle, generation)
    requires SigningTemplate(c.policies[role].algorithm) == Some(candidate.template)
    requires CanonicalPublicKey(candidate) == Some(der) && createdAt != 0
    ensures var m := NewMetadata(c.policies[role], candidate, der, createdAt, generation);
            ValidPending(c, s, role, m) && SameObject(m, candidate)
  {
    if role in s.roles {
      ActiveIsRecorded(c, s, o, role);
      assert s.roles[role].retiring == [];
    }
  }

  /** The pool of a rotating role always has a handle that is neither its active one nor occupied. */
  lemma RotationHandleExists(c: Config, s: Snapshot, o: Objects, role: Role)
    requires ValidConfig(c) && Inv(c, s, o) && Settled(s)
    requires role in s.roles && !Lifetime(c, role)
    ensures exists h :: InPool(c, role, h) && h != s.roles[role].active.handle && h !in o
  {
    assert ValidRoleState(c, role, s.roles[role]);
    var handles := c.policies[role].handles;
    assert ValidPolicy(c.policies[role]) && |handles| >= 2;
    assert handles[0] != handles[1];
    var h := if handles[0] == s.roles[role].active.handle then handles[1] else handles[0];
    assert InPool(c, role, h);
    SettledMeansExact(c, s, o);
  }

  // ---------------------------------------------------------------- whole histories

  /** What one save may do to the active keys. */
  ghost predicate KeyStep(c: Config, s: Snapshot, s': Snapshot) {
    && s'.revision == s.revision + 1
    && (forall role :: role in s.roles ==> role in s'.roles)
    && (forall role :: role in s'.roles ==> ActiveStep(c, s, s', role))
  }

  /** The active key of a role stays, or is first set at generation one, or is replaced by the next generation. */
  predicate ActiveStep(c: Config, s: Snapshot, s': Snapshot, role: Role)
    requires role in s'.roles
  {
    if role !in s.roles then s'.roles[role].active.generation == 1
    else
      || s'.roles[role].active == s.roles[role].active
      || (!Lifetime(c, role) && s'.roles[role].active.generation == s.roles[role].active.generation + 1)
  }

  /** Every snapshot that was ever visible, in order. */
  ghost predicate GoodHistory(c: Config, history: seq<Snapshot>) {
    && history != []
    && history[0] == EmptySnapshot()
    && (forall i :: 0 <= i < |history| ==> SoundAt(c, history, i))
    && (forall i :: 0 <= i < |history| - 1 ==> StepAt(c, history, i))
  }

  ghost predicate SoundAt(c: Config, history: seq<Snapshot>, i: nat)
    requires i < |history|
  {
    ValidSnapshot(c, history[i]) && AtMostOneUnsettled(history[i])
  }

  ghost predicate StepAt(c: Config, history: seq<Snapshot>, i: nat)
    requires i + 1 < |history|
  {
    KeyStep(c, history[i], history[i + 1])
  }

  predicate EndsWith(history: seq<Snapshot>, s: Snapshot) {
    |history| > 0 && history[|history| - 1] == s
  }

  lemma HistoryGrows(c: Config, history: seq<Snapshot>, s: Snapshot)
    requires GoodHistory(c, history) && KeyStep(c, history[|history| - 1], s)
    requires ValidSnapshot(c, s) && AtMostOneUnsettled(s)
    ensures GoodHistory(c, history + [s])
  {
    var grown := history + [s];
    forall i | 0 <= i < |grown| ensures SoundAt(c, grown, i) {
      if i < |history| { assert SoundAt(c, history, i); }
    }
    forall i | 0 <= i < |grown| - 1 ensures StepAt(c, grown, i) {
      if i < |history| - 1 { assert StepAt(c, history, i); }
    }
  }

  lemma PendingIsKeyStep(c: Config, s: Snapshot, role: Role, m: KeyMetadata)
    ensures KeyStep(c, s, WithPending(s, role, m))
  {
  }

  lemma ActivateIsKeyStep(c: Config, s: Snapshot, role: Role)
    requires ValidSnapshot(c, s) && role in s.pending
    ensures KeyStep(c, s, Activated(s, role, s.pending[role]))
  {
    assert ValidPending(c, s, role, s.pending[role]);
  }

  lemma DropIsKeyStep(c: Config, s: Snapshot, role: Role, o: Objects)
    requires role in s.pending && s.pending[role].handle !in o
    ensures KeyStep(c, s, Saved(ResolveOne(s, role, o)))
  {
  }

  lemma ClearIsKeyStep(c: Config, s: Snapshot, role: Role)
    ensures KeyStep(c, s, Saved(ClearOne(s, role)))
  {
  }

  /** The revision of a snapshot is its place in the history. */
  lemma {:induction false} RevisionIsIndex(c: Config, history: seq<Snapshot>, i: nat)
    requires GoodHistory(c, history) && i < |history|
    ensures history[i].revision == i
  {
    if i > 0 {
      RevisionIsIndex(c, history, i - 1);
      assert StepAt(c, history, i - 1);
    }
  }

  /** Roles are never forgotten, and generations never fall. */
  lemma {:induction false} GenerationsGrow(c: Config, history: seq<Snapshot>, i: nat, j: nat, role: Role)
    requires GoodHistory(c, history) && i <= j < |history|
    requires role in history[i].roles
    ensures role in history[j].roles
    ensures history[i].roles[role].active.generation <= history[j].roles[role].active.generation
    decreases j
  {
    if i < j {
      GenerationsGrow(c, history, i, j - 1, role);
      assert StepAt(c, history, j - 1);
    }
  }

  /** The key of a lifetime role never changes once it is set. */
  lemma {:induction false} LifetimeKeyIsForever(c: Config, history: seq<Snapshot>, i: nat, j: nat, role: Role)
    requires GoodHistory(c, history) && i <= j < |history|
    requires Lifetime(c, role) && role in history[i].roles
    ensures role in history[j].roles && history[j].roles[role].active == history[i].roles[role].active
    decreases j
  {
    if i < j {
      LifetimeKeyIsForever(c, history, i, j - 1, role);
      assert StepAt(c, history, j - 1);
      assert ActiveStep(c, history[j - 1], history[j], role);
    }
  }

  /** A role and a generation name at most one key that was ever active. */
  lemma {:induction false} GenerationNamesOneKey(c: Config, history: seq<Snapshot>, i: nat, j: nat, role: Role)
    requires GoodHistory(c, history) && i <= j < |history|
    requires role in history[i].roles && role in history[j].roles
    requires history[i].roles[role].active.generation == history[j].roles[role].active.generation
    ensures history[i].roles[role].active == history[j].roles[role].active
    decreases j
  {
    if i < j {
      GenerationsGrow(c, history, i, j - 1, role);
      assert StepAt(c, history, j - 1);
      assert ActiveStep(c, history[j - 1], history[j], role);
      GenerationNamesOneKey(c, history, i, j - 1, role);
    }
  }

  /** How many saves up to the i-th gave the role an active key it did not have just before. */
  ghost function Activations(history: seq<Snapshot>, i: nat, role: Role): nat
    requires i < |history|
  {
    if i == 0 then 0
    else
      Activations(history, i - 1, role) +
      if role in history[i].roles
         && (role in history[i - 1].roles ==> history[i].roles[role].active != history[i - 1].roles[role].active)
      then 1 else 0
  }

  /** Each activation raises the generation by exactly one, so the generation counts them. */
  lemma {:induction false} GenerationCountsActivations(c: Config, history: seq<Snapshot>, i: nat, role: Role)
    requires GoodHistory(c, history) && i < |history|
    ensures Activations(history, i, role) ==
            if role in history[i].roles then history[i].roles[role].active.generation else 0
  {
    if i > 0 {
      GenerationCountsActivations(c, history, i - 1, role);
      assert StepAt(c, history, i - 1);
      if role in history[i].roles { assert ActiveStep(c, history[i - 1], history[i], role); }
    }
  }
}
