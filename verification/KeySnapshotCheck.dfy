/** The check a loaded key snapshot goes through: a scan with a table of the handles seen so far. */
module KeySnapshotCheck {
  import opened Common
  import opened KeyTypes
  import opened KeyProtocol

  /** Every handle in the table was entered for a role of `roles` or a pending entry of `pendings`. */
  ghost predicate Traces(s: Snapshot, seen: map<Handle, Role>, roles: set<Role>, pendings: set<Role>) {
    forall h :: h in seen ==>
      || (seen[h] in roles && seen[h] in s.roles && Holds(s.roles[seen[h]], h))
      || (seen[h] in pendings && seen[h] in s.pending && s.pending[seen[h]].handle == h)
  }

  /** Every recorded handle of `roles` is in the table, under its role. */
  ghost predicate Covers(s: Snapshot, seen: map<Handle, Role>, roles: set<Role>) {
    forall role, h :: role in roles && role in s.roles && Holds(s.roles[role], h) ==> h in seen && seen[h] == role
  }

  /** The table names only handles of the pool of the role they are entered for. */
  ghost predicate Pooled(c: Config, seen: map<Handle, Role>) {
    forall h :: h in seen ==> InPool(c, seen[h], h)
  }

  /** Since pools are separated, a valid handle can only clash with an entry of its own role. */
  lemma ClashIsOwn(c: Config, seen: map<Handle, Role>, role: Role, h: Handle)
    requires ValidConfig(c) && Pooled(c, seen) && InPool(c, role, h) && h in seen
    ensures seen[h] == role
  {
    OwnPool(c, role, seen[h], h);
  }

  /** The part of `ValidRoleState` that concerns the first `n` of the active entry followed by the retiring ones. */
  ghost predicate ValidUpTo(c: Config, role: Role, state: RoleState, n: nat) {
    && (n > 0 ==> ValidMetadata(c, role, state.active))
    && (forall i :: 0 <= i < n - 1 && i < |state.retiring| ==>
          && ValidMetadata(c, role, state.retiring[i])
          && state.retiring[i].generation < state.active.generation
          && state.retiring[i].handle != state.active.handle)
    && (forall i, j :: 0 <= i < j < n - 1 && j < |state.retiring| ==>
          state.retiring[i].handle != state.retiring[j].handle)
  }

  /** The handles of the first `n` entries. */
  ghost predicate HeldUpTo(state: RoleState, n: nat, h: Handle) {
    || (n > 0 && state.active.handle == h)
    || exists i :: 0 <= i < n - 1 && i < |state.retiring| && state.retiring[i].handle == h
  }

  /** The table is the old one plus the handles of the first `n` entries, entered for the role. */
  ghost predicate Entered(role: Role, state: RoleState, n: nat, seen: map<Handle, Role>, seen': map<Handle, Role>) {
    forall h :: && (h in seen' <==> h in seen || HeldUpTo(state, n, h))
                && (h in seen ==> seen'[h] == seen[h])
                && (HeldUpTo(state, n, h) ==> seen'[h] == role)
  }

  function Entry(state: RoleState, n: nat): KeyMetadata
    requires n <= |state.retiring|
  {
    if n == 0 then state.active else state.retiring[n - 1]
  }

  lemma EnteredOneMore(role: Role, state: RoleState, n: nat, seen: map<Handle, Role>, seen': map<Handle, Role>)
    requires n <= |state.retiring|
    requires Entered(role, state, n, seen, seen') && Entry(state, n).handle !in seen'
    ensures Entered(role, state, n + 1, seen, seen'[Entry(state, n).handle := role])
  {
    forall h ensures HeldUpTo(state, n + 1, h) <==> HeldUpTo(state, n, h) || h == Entry(state, n).handle { }
  }

  lemma ValidOneMore(c: Config, role: Role, state: RoleState, n: nat)
    requires n <= |state.retiring|
    ensures ValidUpTo(c, role, state, n + 1) <==>
            && ValidUpTo(c, role, state, n)
            && ValidMetadata(c, role, Entry(state, n))
            && (n > 0 ==> Entry(state, n).generation < state.active.generation)
            && !HeldUpTo(state, n, Entry(state, n).handle)
  {
    hide ValidMetadata;
    if n > 0 && ValidUpTo(c, role, state, n + 1) {
      assert ValidMetadata(c, role, state.retiring[n - 1]);
    }
  }

  lemma ValidDownTo(c: Config, role: Role, state: RoleState, n: nat)
    requires n <= |state.retiring| + 1
    ensures ValidRoleState(c, role, state) ==> ValidUpTo(c, role, state, n)
  {
    hide ValidMetadata;
  }

  /** The scan covers all of `ValidRoleState` but the rule for lifetime keys. */
  lemma ValidInFull(c: Config, role: Role, state: RoleState)
    requires ValidUpTo(c, role, state, |state.retiring| + 1)
    requires Lifetime(c, role) ==> state.active.generation == 1 && |state.retiring| == 0
    ensures ValidRoleState(c, role, state)
  {
    hide ValidMetadata, Lifetime;
  }

  lemma NeedsPolicy(c: Config, role: Role, state: RoleState)
    requires ValidRoleState(c, role, state)
    ensures role in c.policies
    ensures Lifetime(c, role) ==> state.active.generation == 1 && |state.retiring| == 0
  {
  }

  lemma NothingEntered(c: Config, role: Role, state: RoleState, seen: map<Handle, Role>)
    ensures ValidUpTo(c, role, state, 0) && Entered(role, state, 0, seen, seen)
  {
  }

  /** The table tells whether the record repeats a handle, whatever else is entered. */
  lemma ClashIsRepeat(c: Config, role: Role, state: RoleState, n: nat, seen: map<Handle, Role>,
                      seen': map<Handle, Role>)
    requires ValidConfig(c) && Pooled(c, seen') && Entered(role, state, n, seen, seen') && n <= |state.retiring|
    requires forall h :: h in seen ==> seen[h] != role
    requires ValidMetadata(c, role, Entry(state, n))
    ensures Entry(state, n).handle in seen' <==> HeldUpTo(state, n, Entry(state, n).handle)
  {
    hide ValidConfig, Pooled, HeldUpTo;
    if Entry(state, n).handle in seen' { ClashIsOwn(c, seen', role, Entry(state, n).handle); }
  }

  lemma PooledOneMore(c: Config, role: Role, m: KeyMetadata, seen: map<Handle, Role>)
    requires Pooled(c, seen) && ValidMetadata(c, role, m)
    ensures Pooled(c, seen[m.handle := role])
  {
  }

  method CheckRoleState(c: Config, role: Role, state: RoleState, seen: map<Handle, Role>)
    returns (ok: bool, seen': map<Handle, Role>)
    requires ValidConfig(c) && Pooled(c, seen)
    requires forall h :: h in seen ==> seen[h] != role
    ensures ok <==> ValidRoleState(c, role, state)
    ensures ok ==> Pooled(c, seen') && Entered(role, state, |state.retiring| + 1, seen, seen')
  {
    hide ValidConfig, ValidMetadata, ValidUpTo, HeldUpTo, Pooled, Entered, ValidRoleState;
    if ValidRoleState(c, role, state) { NeedsPolicy(c, role, state); }
    NothingEntered(c, role, state, seen);
    seen' := seen;
    if role !in c.policies { return false, seen'; }
    if IsLifetime(role, c.policies[role]) && (state.active.generation != 1 || |state.retiring| != 0) {
      return false, seen';
    }
    for n := 0 to |state.retiring| + 1
      invariant ValidUpTo(c, role, state, n)
      invariant Pooled(c, seen')
      invariant Entered(role, state, n, seen, seen')
    {
      var m := Entry(state, n);
      ValidOneMore(c, role, state, n);
      ValidDownTo(c, role, state, n + 1);
      if !ValidMetadata(c, role, m) { return false, seen'; }
      if n > 0 && m.generation >= state.active.generation { return false, seen'; }
      ClashIsRepeat(c, role, state, n, seen, seen');
      if m.handle in seen' { return false, seen'; }
      EnteredOneMore(role, state, n, seen, seen');
      PooledOneMore(c, role, m, seen');
      seen' := seen'[m.handle := role];
    }
    ValidInFull(c, role, state);
    ok := true;
  }

  lemma HeldAll(state: RoleState, h: Handle)
    ensures HeldUpTo(state, |state.retiring| + 1, h) <==> Holds(state, h)
  {
  }

  /** After one more role, the table still traces back to, and covers, the roles scanned. */
  lemma ScannedOneMore(s: Snapshot, seen: map<Handle, Role>, seen': map<Handle, Role>, done: set<Role>, role: Role)
    requires role in s.roles && role !in done
    requires Traces(s, seen, done, {}) && Covers(s, seen, done)
    requires Entered(role, s.roles[role], |s.roles[role].retiring| + 1, seen, seen')
    ensures Traces(s, seen', done + {role}, {}) && Covers(s, seen', done + {role})
  {
    forall h ensures HeldUpTo(s.roles[role], |s.roles[role].retiring| + 1, h) <==> Holds(s.roles[role], h) {
      HeldAll(s.roles[role], h);
    }
  }

  method CheckPending(c: Config, s: Snapshot, role: Role, m: KeyMetadata, seen: map<Handle, Role>) returns (ok: bool)
    requires ValidConfig(c) && Pooled(c, seen)
    requires Covers(s, seen, s.roles.Keys)
    requires forall h :: h in seen && seen[h] == role ==> role in s.roles && Holds(s.roles[role], h)
    ensures ok <==> ValidPending(c, s, role, m)
    ensures ok ==> m.handle !in seen
  {
    if role !in c.policies || !ValidMetadata(c, role, m) { return false; }
    if IsLifetime(role, c.policies[role]) && (role in s.roles || m.generation != 1) { return false; }
    var expected := 1;
    if role in s.roles {
      if s.roles[role].active.generation == MAX_UINT64 { return false; }
      expected := s.roles[role].active.generation + 1;
    }
    if m.generation != expected { return false; }
    if m.handle in seen {
      ClashIsOwn(c, seen, role, m.handle);
      return false;
    }
    return true;
  }

  method CheckRoles(c: Config, s: Snapshot) returns (ok: bool, seen: map<Handle, Role>)
    requires ValidConfig(c)
    ensures ok <==> forall role :: role in s.roles ==> ValidRoleState(c, role, s.roles[role])
    ensures ok ==> Pooled(c, seen) && Traces(s, seen, s.roles.Keys, {}) && Covers(s, seen, s.roles.Keys)
  {
    seen := map[];
    var done: set<Role> := {};
    while s.roles.Keys - done != {}
      invariant done <= s.roles.Keys
      invariant forall role :: role in done ==> ValidRoleState(c, role, s.roles[role])
      invariant Pooled(c, seen) && Traces(s, seen, done, {}) && Covers(s, seen, done)
      decreases s.roles.Keys - done
    {
      var role :| role in s.roles.Keys - done;
      var valid, seen' := CheckRoleState(c, role, s.roles[role], seen);
      if !valid { return false, seen; }
      ScannedOneMore(s, seen, seen', done, role);
      done := done + {role};
      seen := seen';
    }
    assert done == s.roles.Keys;
    ok := true;
  }

  lemma PendingOneMore(c: Config, s: Snapshot, seen: map<Handle, Role>, done: set<Role>, role: Role)
    requires role in s.pending && s.pending[role].handle !in seen && ValidPending(c, s, role, s.pending[role])
    requires Pooled(c, seen) && Traces(s, seen, s.roles.Keys, done) && Covers(s, seen, s.roles.Keys)
    ensures var more := seen[s.pending[role].handle := role];
            Pooled(c, more) && Traces(s, more, s.roles.Keys, done + {role}) && Covers(s, more, s.roles.Keys)
  {
  }

  /** A role whose pending entry was not seen yet is in the table only for its own recorded handles. */
  lemma NotEnteredYet(s: Snapshot, seen: map<Handle, Role>, done: set<Role>, role: Role)
    requires Traces(s, seen, s.roles.Keys, done) && role !in done
    ensures forall h :: h in seen && seen[h] == role ==> role in s.roles && Holds(s.roles[role], h)
  {
  }

  /** Accepts exactly the valid snapshots. */
  method CheckSnapshot(c: Config, s: Snapshot) returns (ok: bool)
    requires ValidConfig(c)
    ensures ok <==> ValidSnapshot(c, s)
  {
    hide ValidConfig, ValidRoleState, ValidPending, Pooled, Traces, Covers;
    if s.version != METADATA_VERSION { return false; }
    var seen: map<Handle, Role>;
    ok, seen := CheckRoles(c, s);
    if !ok { return; }
    var done: set<Role> := {};
    while s.pending.Keys - done != {}
      invariant done <= s.pending.Keys
      invariant forall role :: role in done ==> ValidPending(c, s, role, s.pending[role])
      invariant Pooled(c, seen) && Traces(s, seen, s.roles.Keys, done) && Covers(s, seen, s.roles.Keys)
      decreases s.pending.Keys - done
    {
      var role :| role in s.pending.Keys - done;
      NotEnteredYet(s, seen, done, role);
      ok := CheckPending(c, s, role, s.pending[role], seen);
      if !ok { return; }
      PendingOneMore(c, s, seen, done, role);
      done := done + {role};
      seen := seen[s.pending[role].handle := role];
    }
    assert done == s.pending.Keys;
  }
}
