/** The key manager: a metadata store and a TPM that cannot be updated together, and the operations that keep them
    in agreement when any external call may fail, fail after taking effect, or be the last thing the process does. */
module KeyManager {
  import opened Common
  import opened KeyTypes
  import opened KeyProtocol
  import opened KeySnapshotCheck

  /** How an external call goes. `applied` says whether its effect is visible afterwards. */
  datatype Fault =
    | Answers
    | Fails(applied: bool)
    | Crashes(applied: bool)
    | Garbles(public: Public)

  datatype ReadReply = Found(public: Public) | NotFound | Unreadable | ReadCrashed
  datatype CandidateReply = Candidate(public: Public) | NoCandidate | CandidateCrashed
  datatype PersistReply = Persisted(public: Public) | NotPersisted | PersistCrashed
  datatype EvictReply = Evicted | EvictNotFound | NotEvicted | EvictCrashed

  /** The public part of what the TPM generates for a new key. */
  datatype Material = Material(name: string, spki: string)

  predicate Usable(m: Material) {
    m.name != "" && m.spki != ""
  }

  /** The TPM. Its faults and the keys it generates are arbitrary functions of the number of calls made so far. */
  class Tpm {
    var faults: nat -> Fault
    var material: nat -> Material
    var calls: nat
    var objects: Objects

    constructor (faults: nat -> Fault, material: nat -> Material)
      ensures this.faults == faults && this.material == material
      ensures calls == 0 && objects == map[]
    {
      this.faults, this.material := faults, material;
      calls, objects := 0, map[];
    }

    /** From here on every call answers. */
    ghost predicate Quiet()
      reads this`calls, this`faults, this`material
    {
      forall n :: calls <= n ==> faults(n) == Answers && Usable(material(n))
    }

    /** The faults end: from here on the device behaves as given. What it holds stays as it is. */
    method Repair(faults: nat -> Fault, material: nat -> Material)
      modifies this`faults, this`material
      ensures this.faults == faults && this.material == material
    {
      this.faults, this.material := faults, material;
    }

    method ReadPublic(handle: Handle) returns (reply: ReadReply)
      modifies this`calls
      ensures reply.Found? ==> handle in objects
      ensures reply.NotFound? ==> handle !in objects
      ensures old(Quiet()) ==> Quiet() && reply == if handle in objects then Found(objects[handle]) else NotFound
    {
      var fault := faults(calls);
      calls := calls + 1;
      match fault
      case Answers => reply := if handle in objects then Found(objects[handle]) else NotFound;
      case Garbles(public) => reply := if handle in objects then Found(public) else NotFound;
      case Fails(_) => reply := Unreadable;
      case Crashes(_) => reply := ReadCrashed;
    }

    method Supports() returns (out: Outcome)
      modifies this`calls
      ensures old(Quiet()) ==> Quiet() && out.Ok?
    {
      var fault := faults(calls);
      calls := calls + 1;
      out := match fault case Answers => Ok case Garbles(_) => Error case Fails(_) => Error case Crashes(_) => Crash;
    }

    /** Generates and loads a key, without giving it a persistent handle yet. */
    method Generate(handle: Handle, template: Template) returns (reply: CandidateReply)
      modifies this`calls
      ensures old(Quiet()) ==>
                && Quiet()
                && reply.Candidate?
                && reply.public.handle == handle && reply.public.template == template
                && reply.public.name != "" && reply.public.key.spki != ""
                && reply.public.key.algorithm == template.algorithm
    {
      var fault, m := faults(calls), material(calls);
      calls := calls + 1;
      match fault
      case Answers => reply := Candidate(Public(handle, m.name, template, PublicKey(template.algorithm, m.spki)));
      case Garbles(public) => reply := Candidate(public);
      case Fails(_) => reply := NoCandidate;
      case Crashes(_) => reply := CandidateCrashed;
    }

    /** Gives the prepared candidate its persistent handle, which must be free. */
    method Persist(candidate: Public) returns (reply: PersistReply)
      modifies this`calls, this`objects
      ensures objects == old(objects) || objects == old(objects)[candidate.handle := candidate]
      ensures reply.Persisted? ==> objects == old(objects)[candidate.handle := candidate]
      ensures old(Quiet() && candidate.handle !in objects) ==> Quiet() && reply == Persisted(candidate)
    {
      var fault := faults(calls);
      calls := calls + 1;
      if candidate.handle in objects { return NotPersisted; }
      match fault
      case Answers =>
        objects := objects[candidate.handle := candidate];
        reply := Persisted(candidate);
      case Garbles(public) =>
        objects := objects[candidate.handle := candidate];
        reply := Persisted(public);
      case Fails(applied) =>
        if applied { objects := objects[candidate.handle := candidate]; }
        reply := NotPersisted;
      case Crashes(applied) =>
        if applied { objects := objects[candidate.handle := candidate]; }
        reply := PersistCrashed;
    }

    /** Evicts the object at the handle, if it is the one the reference names. */
    method Evict(handle: Handle, name: string, template: Template) returns (reply: EvictReply)
      modifies this`calls, this`objects
      ensures objects == old(objects) || objects == old(objects) - {handle}
      ensures reply.Evicted? ==> objects == old(objects) - {handle}
      ensures old(Quiet() && handle in objects && objects[handle].name == name && objects[handle].template == template)
              ==> Quiet() && reply.Evicted?
    {
      var fault := faults(calls);
      calls := calls + 1;
      if handle !in objects { return EvictNotFound; }
      if objects[handle].name != name || objects[handle].template != template { return NotEvicted; }
      match fault
      case Answers =>
        objects := objects - {handle};
        reply := Evicted;
      case Garbles(_) =>
        reply := NotEvicted;
      case Fails(applied) =>
        if applied { objects := objects - {handle}; }
        reply := NotEvicted;
      case Crashes(applied) =>
        if applied { objects := objects - {handle}; }
        reply := EvictCrashed;
    }
  }

  datatype LoadReply = Loaded(snapshot: Snapshot) | NotLoaded | LoadCrashed
  datatype SaveReply = Stored | Uncertain | Conflict | NotStored | StoreCrashed

  /** The metadata document: replaced as a whole, one revision at a time. `history` is every version ever visible. */
  class MetadataStore {
    var faults: nat -> Fault
    var calls: nat
    var durable: Snapshot
    ghost var history: seq<Snapshot>

    constructor (faults: nat -> Fault)
      ensures this.faults == faults
      ensures calls == 0 && durable == EmptySnapshot() && history == [EmptySnapshot()]
    {
      this.faults := faults;
      calls, durable, history := 0, EmptySnapshot(), [EmptySnapshot()];
    }

    ghost predicate Quiet()
      reads this`calls, this`faults
    {
      forall n :: calls <= n ==> faults(n) == Answers
    }

    method Repair(faults: nat -> Fault)
      modifies this`faults
      ensures this.faults == faults
    {
      this.faults := faults;
    }

    method Load() returns (reply: LoadReply)
      modifies this`calls
      ensures reply.Loaded? ==> reply.snapshot == durable && durable.version == METADATA_VERSION
      ensures old(Quiet()) && durable.version == METADATA_VERSION ==> Quiet() && reply.Loaded?
    {
      var fault := faults(calls);
      calls := calls + 1;
      if fault.Crashes? { return LoadCrashed; }
      if !fault.Answers? || durable.version != METADATA_VERSION { return NotLoaded; }
      reply := Loaded(durable);
    }

    /** Checks only the envelope and the revision. */
    method Save(next: Snapshot) returns (reply: SaveReply)
      modifies this
      ensures (durable == old(durable) && history == old(history))
              || (durable == next && history == old(history) + [next])
      ensures reply.Stored? || reply.Uncertain? ==> durable == next && history == old(history) + [next]
      ensures reply.Conflict? || reply.NotStored? ==> durable == old(durable) && history == old(history)
      ensures reply.Conflict? <==>
              next.version == METADATA_VERSION
              && (old(durable.revision) == MAX_UINT64 || next.revision != old(durable.revision) + 1)
      ensures durable != old(durable) ==> next.revision == old(durable.revision) + 1
      ensures old(Quiet()) ==> Quiet()
      ensures old(Quiet()) && next.version == METADATA_VERSION
              && next.revision == old(durable.revision) + 1 <= MAX_UINT64
              ==> reply.Stored?
    {
      var fault := faults(calls);
      calls := calls + 1;
      if next.version != METADATA_VERSION { return NotStored; }
      if durable.revision == MAX_UINT64 || next.revision != durable.revision + 1 { return Conflict; }
      match fault
      case Answers =>
        durable, history := next, history + [next];
        reply := Stored;
      case Garbles(_) =>
        reply := NotStored;
      case Fails(applied) =>
        if applied {
          durable, history := next, history + [next];
          reply := Uncertain;
        } else {
          reply := NotStored;
        }
      case Crashes(applied) =>
        if applied { durable, history := next, history + [next]; }
        reply := StoreCrashed;
    }
  }

  /** What a reader of the metadata finds after an operation is dropped from memory. */
  const FORGOTTEN: Snapshot := Snapshot(0, 0, map[], map[])

  /** The zero metadata value returned beside an error. */
  const NO_METADATA: KeyMetadata :=
    KeyMetadata(Custom(""), UnsupportedPurpose(""), UnknownAlgorithm(""), 0, "", "",
                Template(UnknownAlgorithm(""), 0, 0, NoCurve, PureEd25519), 0, 0)

  class Manager {
    const tpm: Tpm
    const store: MetadataStore
    const config: Config
    var loaded: bool
    var snapshot: Snapshot

    constructor (tpm: Tpm, store: MetadataStore, config: Config)
      ensures this.tpm == tpm && this.store == store && this.config == config
      ensures !loaded
    {
      this.tpm, this.store, this.config := tpm, store, config;
      loaded, snapshot := false, FORGOTTEN;
    }

    /** Metadata and TPM agree up to one unsettled entry, and everything ever saved was valid. */
    ghost predicate Sound()
      reads tpm`objects, store`durable, store`history
    {
      && ValidConfig(config)
      && Inv(config, store.durable, tpm.objects)
      && GoodHistory(config, store.history) && EndsWith(store.history, store.durable)
    }

    /** The manager works on the durable snapshot. */
    ghost predicate Synced()
      reads this, store`durable
    {
      loaded && snapshot == store.durable
    }

    ghost predicate Quiet()
      reads tpm`calls, tpm`faults, tpm`material, store`calls, store`faults
    {
      tpm.Quiet() && store.Quiet()
    }

    /** Saves the next snapshot and follows the store's answer: a replacement that is visible is taken over even when
        its durability is uncertain, and after a conflict the memory copy is given up. */
    method PersistSnapshot(next: Snapshot) returns (out: Outcome)
      modifies this, store
      ensures (store.durable == old(store.durable) && store.history == old(store.history))
              || (store.durable == next && store.history == old(store.history) + [next])
      ensures out.Ok? ==> store.durable == next && snapshot == next && loaded == old(loaded)
      ensures out.Error? && loaded ==> loaded == old(loaded) && (old(Synced()) ==> Synced())
      ensures old(store.Quiet()) && next.version == METADATA_VERSION
              && next.revision == old(store.durable.revision) + 1 <= MAX_UINT64
              ==> store.Quiet() && out.Ok?
    {
      var reply := store.Save(next);
      match reply
      case Stored =>
        snapshot := next;
        out := Ok;
      case Uncertain =>
        snapshot := next;
        out := Error;
      case Conflict =>
        loaded, snapshot := false, FORGOTTEN;
        out := Error;
      case NotStored => out := Error;
      case StoreCrashed => out := Crash;
    }

    /** One save of the protocol: whatever the store answers, the old or the new snapshot is durable, and both are
        sound. */
    method Advance(next: Snapshot) returns (out: Outcome)
      requires Sound() && Synced()
      requires KeyStep(config, store.durable, next) && Inv(config, next, tpm.objects)
      modifies this, store
      ensures Sound()
      ensures store.durable == old(store.durable) || store.durable == next
      ensures out.Ok? ==> Synced() && store.durable == next
      ensures old(store.Quiet()) ==> store.Quiet() && out.Ok?
    {
      HistoryGrows(config, store.history, next);
      Recoverable(config, next, tpm.objects);
      BoundedRevision(config, next, tpm.objects);
      hide Inv, GoodHistory, ValidConfig;
      out := PersistSnapshot(next);
    }

    /** The recovery pass over the pending entries, on a copy of the snapshot. */
    method ResolveEntries() returns (out: Outcome, next: Snapshot, changed: bool)
      modifies tpm`calls
      ensures out.Ok? ==> next == ResolveAll(snapshot, config.order, tpm.objects)
      ensures !changed ==> next == snapshot
      ensures old(tpm.Quiet())
              && (forall role :: role in snapshot.pending ==> GoneOrLive(tpm.objects, snapshot.pending[role]))
              ==> tpm.Quiet() && out.Ok?
    {
      next, changed := snapshot, false;
      for n := 0 to |config.order|
        invariant next == ResolveAll(snapshot, config.order[..n], tpm.objects)
        invariant !changed ==> next == snapshot
        invariant old(tpm.Quiet()) ==> tpm.Quiet()
      {
        var role := config.order[n];
        assert config.order[..n + 1][..n] == config.order[..n];
        if role in next.pending {
          var m := next.pending[role];
          ResolveAllKeepsEntries(snapshot, config.order[..n], tpm.objects, role);
          var reply := tpm.ReadPublic(m.handle);
          match reply {
            case NotFound =>
              next, changed := next.(pending := next.pending - {role}), true;
            case Found(public) =>
              if !SameObject(m, public) { return Error, snapshot, false; }
              next := next.(roles := next.roles[role := Succeeded(next, role, m)], pending := next.pending - {role});
              changed := true;
            case Unreadable => return Error, snapshot, false;
            case ReadCrashed => return Crash, snapshot, false;
          }
        }
      }
      assert config.order[..|config.order|] == config.order;
      out := Ok;
    }

    /** Settles pending creations: adopts those whose object exists, drops the others. */
    method ReconcilePending() returns (out: Outcome)
      requires Sound() && Synced()
      modifies this, store, tpm`calls
      ensures Sound()
      ensures out.Ok? ==>
                && Synced() && store.durable.pending == map[]
                && HasRecovered(old(store.durable), tpm.objects, store.durable)
      ensures RecoveryEnds(store.durable) <= old(RecoveryEnds(store.durable))
      ensures old(Quiet()) ==> Quiet() && out.Ok?
    {
      hide Inv, GoodHistory, ValidConfig, KeyStep, ResolveAll;
      Recoverable(config, snapshot, tpm.objects);
      if !loaded || |snapshot.pending| == 0 { return Ok; }
      if 1 > MAX_UINT64 - snapshot.revision { return Error; }
      var next, changed;
      out, next, changed := ResolveEntries();
      if out.Ok? {
        ResolveAllKeepsInv(config, snapshot, tpm.objects);
        ResolveAllRecovers(config, snapshot, tpm.objects);
        if changed {
          out := if next.revision == MAX_UINT64 then Error else out;
          if out.Ok? { out := Advance(Saved(next)); }
        }
      }
    }

    /** Evicts the superseded objects of one role that still exist. */
    method EvictRole(role: Role) returns (out: Outcome, changed: bool)
      requires ValidConfig(config) && Inv(config, snapshot, tpm.objects)
      requires role in snapshot.roles
      modifies tpm
      ensures Inv(config, snapshot, tpm.objects)
      ensures tpm.objects.Keys <= old(tpm.objects.Keys)
      ensures out.Ok? ==> RetiringGone(snapshot, tpm.objects, role)
      ensures out.Ok? && snapshot.roles[role].retiring != [] ==> changed
      ensures old(tpm.Quiet()) ==> tpm.Quiet() && out.Ok?
    {
      hide Inv, ValidConfig;
      changed := false;
      var retiring := snapshot.roles[role].retiring;
      for n := 0 to |retiring|
        invariant Inv(config, snapshot, tpm.objects)
        invariant tpm.objects.Keys <= old(tpm.objects.Keys)
        invariant forall k :: 0 <= k < n ==> retiring[k].handle !in tpm.objects
        invariant n > 0 ==> changed
        invariant old(tpm.Quiet()) ==> tpm.Quiet()
      {
        var m := retiring[n];
        RetiringIsRecorded(config, snapshot, tpm.objects, role, n);
        EvictKeepsInv(config, snapshot, tpm.objects, role, n);
        var reply := tpm.ReadPublic(m.handle);
        match reply {
          case NotFound =>
          case Found(public) =>
            if !SameObject(m, public) { return Error, changed; }
            var evicted := tpm.Evict(m.handle, m.publicName, m.template);
            if evicted.EvictCrashed? { return Crash, changed; }
            if !evicted.Evicted? { return Error, changed; }
          case Unreadable => return Error, changed;
          case ReadCrashed => return Crash, changed;
        }
        changed := true;
      }
      out := Ok;
    }

    /** The clean-up pass over the roles, on a copy of the snapshot. */
    method EvictAll() returns (out: Outcome, next: Snapshot, changed: bool)
      requires ValidConfig(config) && Inv(config, snapshot, tpm.objects)
      modifies tpm
      ensures Inv(config, snapshot, tpm.objects)
      ensures out.Ok? ==> next == ClearAll(snapshot, config.order)
      ensures out.Ok? ==>
                forall role :: role in snapshot.roles && role in config.order ==>
                       RetiringGone(snapshot, tpm.objects, role)
      ensures !changed ==> next == snapshot
      ensures changed ==> HasRetiring(snapshot)
      ensures old(tpm.Quiet()) ==> tpm.Quiet() && out.Ok?
    {
      hide Inv, ValidConfig;
      next, changed := snapshot, false;
      for n := 0 to |config.order|
        invariant Inv(config, snapshot, tpm.objects)
        invariant next == ClearAll(snapshot, config.order[..n])
        invariant forall k :: 0 <= k < n ==> RetiringGone(snapshot, tpm.objects, config.order[k])
        invariant !changed ==> next == snapshot
        invariant changed ==> HasRetiring(snapshot)
        invariant old(tpm.Quiet()) ==> tpm.Quiet()
      {
        var role := config.order[n];
        assert config.order[..n + 1][..n] == config.order[..n];
        ClearAllKeepsRest(snapshot, config.order[..n], role);
        if role in next.roles && next.roles[role].retiring != [] {
          ghost var before := tpm.objects;
          var evicted, any := EvictRole(role);
          if !evicted.Ok? { return evicted, snapshot, false; }
          forall k | 0 <= k < n ensures RetiringGone(snapshot, tpm.objects, config.order[k]) {
            assert RetiringGone(snapshot, before, config.order[k]);
          }
          next := next.(roles := next.roles[role := next.roles[role].(retiring := [])]);
          changed := changed || any;
        } else if role in next.roles && snapshot.roles[role].retiring != [] {
          assert role in config.order[..n];
        }
      }
      assert config.order[..|config.order|] == config.order;
      out := Ok;
    }

    /** Evicts superseded objects and then forgets them. */
    method ReconcileRetiring() returns (out: Outcome)
      requires Sound() && Synced()
      modifies this, store, tpm
      ensures Sound()
      ensures out.Ok? ==> Synced() && !HasRetiring(store.durable) && SameActives(old(store.durable), store.durable)
      ensures RecoveryEnds(store.durable) <= old(RecoveryEnds(store.durable))
      ensures out.Ok? && old(store.durable.pending) == map[] ==> store.durable.pending == map[]
      ensures old(Quiet()) ==> Quiet() && out.Ok?
    {
      hide Inv, GoodHistory, ValidConfig, KeyStep, ClearAll, RetiringGone;
      Recoverable(config, snapshot, tpm.objects);
      if !loaded { return Ok; }
      if HasRetiring(snapshot) && 1 > MAX_UINT64 - snapshot.revision { return Error; }
      var next, changed;
      out, next, changed := EvictAll();
      if out.Ok? {
        if changed {
          RolesAreOrdered(config, snapshot, tpm.objects);
          ClearAllKeepsInv(config, snapshot, tpm.objects);
          ClearAllSameActives(snapshot, config.order);
          out := if next.revision == MAX_UINT64 then Error else out;
          if out.Ok? { out := Advance(Saved(next)); }
        } else {
          RolesAreOrdered(config, snapshot, tpm.objects);
          NothingCleared(snapshot, config.order);
        }
      }
    }

    /** Checks one recorded object against the live one. */
    method VerifyMetadata(m: KeyMetadata) returns (out: Outcome)
      modifies tpm`calls
      ensures old(tpm.Quiet()) && Live(tpm.objects, m) ==> tpm.Quiet() && out.Ok?
    {
      var reply := tpm.ReadPublic(m.handle);
      match reply
      case Found(public) => out := if SameObject(m, public) then Ok else Error;
      case NotFound => out := Error;
      case Unreadable => out := Error;
      case ReadCrashed => out := Crash;
    }

    /** Checks one role's recorded objects; a superseded one may be gone. */
    method VerifyRole(state: RoleState) returns (out: Outcome)
      modifies tpm`calls
      ensures old(tpm.Quiet()) && Live(tpm.objects, state.active)
              && (forall i :: 0 <= i < |state.retiring| ==> GoneOrLive(tpm.objects, state.retiring[i]))
              ==> tpm.Quiet() && out.Ok?
    {
      out := VerifyMetadata(state.active);
      if !out.Ok? { return; }
      for i := 0 to |state.retiring|
        invariant out.Ok?
        invariant old(tpm.Quiet()) && Live(tpm.objects, state.active) ==> tpm.Quiet()
      {
        var reply := tpm.ReadPublic(state.retiring[i].handle);
        match reply {
          case NotFound =>
          case Found(public) => if !SameObject(state.retiring[i], public) { return Error; }
          case Unreadable => return Error;
          case ReadCrashed => return Crash;
        }
      }
    }

    method VerifyRoles(s: Snapshot) returns (out: Outcome)
      modifies tpm`calls
      ensures old(tpm.Quiet()) && Inv(config, s, tpm.objects) ==> tpm.Quiet() && out.Ok?
    {
      hide Inv;
      out := Ok;
      for n := 0 to |config.order|
        invariant out.Ok?
        invariant old(tpm.Quiet()) && Inv(config, s, tpm.objects) ==> tpm.Quiet()
      {
        var role := config.order[n];
        if role in s.roles {
          if Inv(config, s, tpm.objects) {
            ActiveIsRecorded(config, s, tpm.objects, role);
            forall i | 0 <= i < |s.roles[role].retiring| ensures GoneOrLive(tpm.objects, s.roles[role].retiring[i]) {
              RetiringIsRecorded(config, s, tpm.objects, role, i);
            }
          }
          out := VerifyRole(s.roles[role]);
          if !out.Ok? { return; }
        }
      }
    }

    method Forget()
      modifies this
      ensures !loaded
    {
      loaded, snapshot := false, FORGOTTEN;
    }

    /** Loads and verifies the metadata and settles whatever a crash or a failed call left behind. Never creates
        a key. */
    method Open() returns (out: Outcome)
      requires Sound()
      modifies this, store, tpm
      ensures Sound()
      ensures out.Ok? ==>
                Synced() && Settled(store.durable) && HasRecovered(old(store.durable), old(tpm.objects), store.durable)
      ensures RecoveryEnds(store.durable) <= old(RecoveryEnds(store.durable))
      ensures old(Quiet()) ==> Quiet() && out.Ok?
    {
      hide Inv, GoodHistory, ValidConfig, ValidSnapshot;
      Recoverable(config, store.durable, tpm.objects);
      InvIsValid(config, store.durable, tpm.objects);
      var reply := store.Load();
      if reply.LoadCrashed? { return Crash; }
      if !reply.Loaded? { return Error; }
      var valid := CheckSnapshot(config, reply.snapshot);
      if !valid { return Error; }
      out := VerifyRoles(reply.snapshot);
      if out.Ok? {
        snapshot, loaded := reply.snapshot, true;
        out := ReconcilePending();
        if out.Ok? { out := ReconcileRetiring(); }
        if out.Error? { Forget(); }
      }
    }

    method EnsureLoaded() returns (out: Outcome)
      requires Sound()
      requires loaded ==> Synced()
      modifies this, store, tpm
      ensures Sound()
      ensures out.Ok? ==>
                Synced() && Settled(store.durable) && HasRecovered(old(store.durable), old(tpm.objects), store.durable)
      ensures RecoveryEnds(store.durable) <= old(RecoveryEnds(store.durable))
      ensures old(Quiet()) ==> Quiet() && out.Ok?
    {
      hide Inv, GoodHistory, ValidConfig;
      if !loaded {
        out := Open();
      } else {
        out := ReconcilePending();
        if out.Ok? { out := ReconcileRetiring(); }
      }
    }

    /** Records the intent to create a key for the generated candidate. The TPM calls this before it
        persists anything. */
    method Prepare(role: Role, handle: Handle, template: Template, generation: nat, createdAt: nat, candidate: Public)
      returns (out: Outcome, metadata: KeyMetadata)
      requires Sound() && Synced() && Settled(snapshot)
      requires MayCreate(config, snapshot, tpm.objects, role, handle, generation) && createdAt != 0
      requires SigningTemplate(config.policies[role].algorithm) == Some(template)
      modifies this, store
      ensures Sound()
      ensures out.Ok? ==>
                && Synced() && snapshot == WithPending(old(snapshot), role, metadata)
                && SameObject(metadata, candidate) && candidate.handle == handle
      ensures old(store.Quiet())
              && candidate.handle == handle && candidate.template == template && CanonicalPublicKey(candidate).Some?
              ==> store.Quiet() && out.Ok?
    {
      hide Inv, GoodHistory, ValidConfig, KeyStep, ValidPending;
      var policy := config.policies[role];
      var der := CanonicalPublicKey(candidate);
      metadata := NewMetadata(policy, candidate, if der.Some? then der.value else "", createdAt, generation);
      if candidate.handle != handle || candidate.template != template || der.None? || role in snapshot.pending {
        return Error, metadata;
      }
      CandidateIsValidPending(config, snapshot, tpm.objects, role, candidate, der.value, createdAt, generation);
      PendingKeepsInv(config, snapshot, tpm.objects, role, metadata);
      PendingIsKeyStep(config, snapshot, role, metadata);
      out := Advance(WithPending(snapshot, role, metadata));
    }

    /** Takes back an object just created, if the reply identifies it. */
    method EvictCreated(handle: Handle, template: Template, public: Public) returns (out: Outcome)
      modifies tpm
      ensures tpm.objects == old(tpm.objects) || tpm.objects == old(tpm.objects) - {handle}
    {
      if public.handle != handle || public.template != template || public.name == "" { return Error; }
      var reply := tpm.Evict(public.handle, public.name, public.template);
      out := match reply
        case Evicted => Ok
        case EvictNotFound => Ok
        case NotEvicted => Error
        case EvictCrashed => Crash;
    }

    /** Creates a persistent key: intent first, then the object, then two checks of what was created. */
    method CreateMetadata(role: Role, handle: Handle, generation: nat,
                          now: nat) returns (out: Outcome, metadata: KeyMetadata)
      requires Sound() && Synced() && Settled(snapshot)
      requires MayCreate(config, snapshot, tpm.objects, role, handle, generation)
      modifies this, store, tpm
      ensures Sound()
      ensures out.Ok? ==>
                && Synced() && snapshot == WithPending(old(snapshot), role, metadata)
                && Live(tpm.objects, metadata)
      ensures old(Quiet()) && now != 0 ==> Quiet() && out.Ok?
    {
      hide Inv, GoodHistory, KeyStep, ValidPending;
      metadata := NO_METADATA;
      out := tpm.Supports();
      if !out.Ok? { return; }
      var template := SigningTemplate(config.policies[role].algorithm);
      if template.None? || now == 0 { return Error, metadata; }
      hide ValidConfig;
      var generated := tpm.Generate(handle, template.value);
      if generated.CandidateCrashed? { return Crash, metadata; }
      if !generated.Candidate? { return Error, metadata; }
      var candidate := generated.public;
      out, metadata := Prepare(role, handle, template.value, generation, now, candidate);
      if !out.Ok? { return; }
      out := FinishCreate(role, handle, template.value, candidate, metadata);
    }

    /** Persists the prepared candidate and checks the result, taking it back when the checks fail. */
    method FinishCreate(role: Role, handle: Handle, template: Template, candidate: Public, metadata: KeyMetadata)
      returns (out: Outcome)
      requires Sound() && Synced()
      requires role in snapshot.pending && snapshot.pending[role] == metadata
      requires SameObject(metadata, candidate) && metadata.handle == handle
      modifies tpm
      ensures Sound()
      ensures out.Ok? ==> Live(tpm.objects, metadata)
      ensures old(tpm.Quiet()) && old(handle !in tpm.objects) ==> tpm.Quiet() && out.Ok?
    {
      hide Inv, GoodHistory, ValidConfig;
      CreatedKeepsInv(config, snapshot, tpm.objects, role, candidate);
      var persisted := tpm.Persist(candidate);
      if persisted.PersistCrashed? { return Crash; }
      if !persisted.Persisted? { return Error; }
      var public := persisted.public;
      UncreatedKeepsInv(config, snapshot, tpm.objects, role);
      var reread := Unreadable;
      if SameObject(metadata, public) {
        reread := tpm.ReadPublic(handle);
        if reread.ReadCrashed? { return Crash; }
      }
      if reread.Found? && SameObject(metadata, reread.public) {
        out := Ok;
      } else {
        var cleanup := EvictCreated(handle, template, public);
        out := if cleanup.Crash? then Crash else Error;
      }
    }

    /** The handle for a role's first key: the first of its pool, if free. */
    method InitialHandle(role: Role) returns (out: Outcome, handle: Handle)
      requires role in config.policies && config.policies[role].handles != []
      modifies tpm`calls
      ensures out.Ok? ==> InPool(config, role, handle) && handle !in tpm.objects
      ensures old(tpm.Quiet()) ==> tpm.Quiet() && (out.Ok? <==> config.policies[role].handles[0] !in tpm.objects)
    {
      handle := config.policies[role].handles[0];
      var reply := tpm.ReadPublic(handle);
      out := match reply case NotFound => Ok case Found(_) => Error case Unreadable => Error case ReadCrashed => Crash;
    }

    /** The handle for a role's next key: the first of its pool that is neither recorded nor occupied. */
    method RotationHandle(role: Role, state: RoleState) returns (out: Outcome, handle: Handle)
      requires role in config.policies
      modifies tpm`calls
      ensures out.Ok? ==> InPool(config, role, handle) && handle !in tpm.objects && !Holds(state, handle)
      ensures old(tpm.Quiet()) ==>
                && tpm.Quiet()
                && (out.Ok? <==> exists h :: InPool(config, role, h) && h !in tpm.objects && !Holds(state, h))
    {
      var handles := config.policies[role].handles;
      handle := 0;
      for n := 0 to |handles|
        invariant old(tpm.Quiet()) ==> tpm.Quiet()
        invariant forall k :: 0 <= k < n ==> handles[k] in tpm.objects || Holds(state, handles[k])
      {
        handle := handles[n];
        if !Holds(state, handle) {
          assert InPool(config, role, handle);
          var reply := tpm.ReadPublic(handle);
          match reply {
            case NotFound => return Ok, handle;
            case Found(_) =>
            case Unreadable => return Error, handle;
            case ReadCrashed => return Crash, handle;
          }
        }
      }
      out := Error;
    }

    /** Starts a transaction: nothing cached from an earlier one is used. */
    method BeginOperation()
      modifies this
      ensures !loaded
    {
      Forget();
    }

    /** Saves the activation of the key just created. */
    method Activate(role: Role) returns (out: Outcome)
      requires Sound() && Synced()
      requires role in snapshot.pending && Live(tpm.objects, snapshot.pending[role])
      modifies this, store
      ensures Sound()
      ensures out.Ok? ==> Synced() && store.durable == Activated(old(snapshot), role, old(snapshot).pending[role])
      ensures store.durable.pending == map[] || !out.Ok?
      ensures old(store.Quiet()) ==> store.Quiet() && out.Ok?
    {
      hide Inv, GoodHistory, ValidConfig, KeyStep;
      ActivateKeepsInv(config, snapshot, tpm.objects, role);
      InvIsValid(config, snapshot, tpm.objects);
      ActivateIsKeyStep(config, snapshot, role);
      Recoverable(config, snapshot, tpm.objects);
      if snapshot.revision == MAX_UINT64 { return Error; }
      out := Advance(Activated(snapshot, role, snapshot.pending[role]));
    }

    /** Creates and activates the first key of a role. */
    method CreateFirst(role: Role, now: nat) returns (out: Outcome, metadata: KeyMetadata)
      requires Sound() && Synced() && Settled(snapshot)
      requires role in config.policies && role !in snapshot.roles
      modifies this, store, tpm
      ensures Sound()
      ensures out.Ok? ==>
                && Synced() && Settled(store.durable)
                && role in store.durable.roles && store.durable.roles[role].active == metadata
                && Live(tpm.objects, metadata)
      ensures old(Quiet()) && now != 0 && old(snapshot.revision) + 2 <= MAX_UINT64 ==> Quiet() && out.Ok?
    {
      hide Inv, GoodHistory, KeyStep;
      metadata := NO_METADATA;
      assert ValidPolicy(config.policies[role]);
      assert InPool(config, role, config.policies[role].handles[0]);
      SettledMeansExact(config, snapshot, tpm.objects);
      var handle;
      out, handle := InitialHandle(role);
      if !out.Ok? { return; }
      if 2 > MAX_UINT64 - snapshot.revision { return Error, metadata; }
      hide ValidConfig;
      out, metadata := CreateMetadata(role, handle, 1, now);
      if !out.Ok? { return; }
      FirstActivationSettles(old(snapshot), role, metadata);
      out := Activate(role);
    }

    /** Returns the role's verified key, or creates its first one. */
    method EnsureRole(role: Role, now: nat) returns (out: Outcome, metadata: KeyMetadata)
      requires Sound()
      modifies this, store, tpm
      ensures Sound()
      ensures out.Ok? ==>
                && Synced() && Settled(store.durable)
                && role in store.durable.roles && store.durable.roles[role].active == metadata
      ensures old(Quiet()) && role in config.policies && now != 0 && old(RecoveryEnds(store.durable)) + 2 <= MAX_UINT64
              ==> Quiet() && out.Ok?
    {
      hide Inv, GoodHistory, ValidConfig, KeyStep;
      metadata := NO_METADATA;
      BeginOperation();
      out := EnsureLoaded();
      if !out.Ok? { return; }
      if role !in config.policies { return Error, metadata; }
      if role in snapshot.roles {
        ActiveIsRecorded(config, snapshot, tpm.objects, role);
        metadata := snapshot.roles[role].active;
        out := VerifyMetadata(metadata);
      } else {
        out, metadata := CreateFirst(role, now);
      }
    }

    /** Creates and activates the next key of a role, leaving its predecessor to retire. */
    method CreateNext(role: Role, now: nat) returns (out: Outcome, metadata: KeyMetadata)
      requires Sound() && Synced() && Settled(snapshot)
      requires role in config.policies && role in snapshot.roles && !Lifetime(config, role)
      modifies this, store, tpm
      ensures Sound()
      ensures out.Ok? ==>
                && Synced() && store.durable.pending == map[]
                && role in store.durable.roles && store.durable.roles[role].active == metadata
                && metadata.generation == old(snapshot.roles[role].active.generation) + 1
      ensures old(Quiet()) && now != 0
              && old(snapshot.revision) + 3 <= MAX_UINT64 && old(snapshot.roles[role].active.generation) != MAX_UINT64
              ==> Quiet() && out.Ok?
    {
      hide Inv, GoodHistory, ValidConfig, KeyStep, ValidSnapshot;
      metadata := NO_METADATA;
      var state := snapshot.roles[role];
      if state.active.generation == MAX_UINT64 { return Error, metadata; }
      if 3 > MAX_UINT64 - snapshot.revision { return Error, metadata; }
      RotationHandleExists(config, snapshot, tpm.objects, role);
      assert state.retiring == [];
      var handle;
      out, handle := RotationHandle(role, state);
      if !out.Ok? { return; }
      out, metadata := CreateMetadata(role, handle, state.active.generation + 1, now);
      if !out.Ok? { return; }
      InvIsValid(config, snapshot, tpm.objects);
      PendingGeneration(config, snapshot, role);
      out := Activate(role);
    }

    /** Replaces the key of a role that rotates, and retires the old one. Lifetime roles are refused. */
    method Rotate(role: Role, now: nat) returns (out: Outcome, metadata: KeyMetadata)
      requires Sound()
      modifies this, store, tpm
      ensures Sound()
      ensures out.Ok? ==>
                && !Lifetime(config, role)
                && Synced() && Settled(store.durable)
                && role in store.durable.roles && store.durable.roles[role].active == metadata
                && Follows(old(RecoveredActive(store.durable, tpm.objects, role)), metadata)
      ensures old(Quiet()) && now != 0 && role in config.policies && !Lifetime(config, role)
              && old(MayFollow(RecoveredActive(store.durable, tpm.objects, role)))
              && old(RecoveryEnds(store.durable)) + 3 <= MAX_UINT64
              ==> Quiet() && out.Ok?
    {
      hide Inv, GoodHistory, ValidConfig, KeyStep;
      metadata := NO_METADATA;
      BeginOperation();
      out := EnsureLoaded();
      if !out.Ok? { return; }
      if role !in config.policies || IsLifetime(role, config.policies[role]) || role !in snapshot.roles {
        return Error, metadata;
      }
      out, metadata := RotateLoaded(role, now);
    }

    /** The rotation itself, once recovery is done: with every call answering it succeeds unless a counter is
        exhausted. */
    method RotateLoaded(role: Role, now: nat) returns (out: Outcome, metadata: KeyMetadata)
      requires Sound() && Synced() && Settled(snapshot)
      requires role in config.policies && role in snapshot.roles && !Lifetime(config, role)
      modifies this, store, tpm
      ensures Sound()
      ensures out.Ok? ==>
                && Synced() && Settled(store.durable)
                && role in store.durable.roles && store.durable.roles[role].active == metadata
                && metadata.generation == old(snapshot.roles[role].active.generation) + 1
      ensures old(Quiet()) && now != 0
              && old(snapshot.revision) + 3 <= MAX_UINT64 && old(snapshot.roles[role].active.generation) != MAX_UINT64
              ==> Quiet() && out.Ok?
    {
      hide Inv, GoodHistory, ValidConfig, KeyStep;
      ActiveIsRecorded(config, snapshot, tpm.objects, role);
      metadata := NO_METADATA;
      out := VerifyMetadata(snapshot.roles[role].active);
      if !out.Ok? { return; }
      out, metadata := CreateNext(role, now);
      if !out.Ok? { return; }
      out := ReconcileRetiring();
    }

    /** Finishes retirements an earlier rotation left undone. */
    method ReconcileRetiringOperation() returns (out: Outcome)
      requires Sound()
      modifies this, store, tpm
      ensures Sound()
      ensures out.Ok? ==> Synced() && Settled(store.durable)
      ensures old(Quiet()) ==> Quiet() && out.Ok?
    {
      hide Inv, GoodHistory, ValidConfig, KeyStep;
      BeginOperation();
      out := EnsureLoaded();
      if !out.Ok? { return; }
      out := ReconcileRetiring();
    }
  }

  /** The next key in a role's line. */
  predicate Follows(before: Option<KeyMetadata>, m: KeyMetadata) {
    before.Some? && m.generation == before.value.generation + 1
  }

  predicate MayFollow(before: Option<KeyMetadata>) {
    before.Some? && before.value.generation != MAX_UINT64
  }

  /** The same roles, with the same active keys. */
  predicate SameActives(s: Snapshot, s': Snapshot) {
    s'.roles.Keys == s.roles.Keys && forall role :: role in s.roles ==> s'.roles[role].active == s.roles[role].active
  }

  lemma ClearAllSameActives(s: Snapshot, order: seq<Role>)
    ensures SameActives(s, Saved(ClearAll(s, order)))
  {
    forall role | role in s.roles
      ensures role in ClearAll(s, order).roles && ClearAll(s, order).roles[role].active == s.roles[role].active
    {
      ClearAllKeepsRest(s, order, role);
    }
    if s.roles != map[] {
      var role :| role in s.roles;
      ClearAllKeepsRest(s, order, role);
    } else {
      ClearAllKeepsRest(s, order, DeviceIPNSIdentity);
    }
  }

  lemma FirstActivationSettles(s: Snapshot, role: Role, m: KeyMetadata)
    requires Settled(s) && role !in s.roles
    ensures Settled(Activated(WithPending(s, role, m), role, m))
  {
    var s' := Activated(WithPending(s, role, m), role, m);
    assert s'.pending == map[];
    assert s'.roles[role].retiring == [];
  }

  lemma PendingGeneration(c: Config, s: Snapshot, role: Role)
    requires ValidSnapshot(c, s) && role in s.pending && role in s.roles
    ensures s.pending[role].generation == s.roles[role].active.generation + 1
  {
    assert ValidPending(c, s, role, s.pending[role]);
  }

  /** Roles not listed keep their state through a clean-up pass; listed ones have nothing retiring. */
  lemma {:induction false} ClearAllKeepsRest(s: Snapshot, order: seq<Role>, role: Role)
    ensures var s' := ClearAll(s, order);
            && s'.roles.Keys == s.roles.Keys && s'.version == s.version && s'.revision == s.revision
            && s'.pending == s.pending
            && (role in s.roles && role !in order ==> s'.roles[role] == s.roles[role])
            && (role in s.roles && role in order ==> s'.roles[role] == s.roles[role].(retiring := []))
  {
    if order != [] {
      assert order == order[..|order| - 1] + [order[|order| - 1]];
      ClearAllKeepsRest(s, order[..|order| - 1], role);
      ClearAllKeepsRest(s, order[..|order| - 1], order[|order| - 1]);
    }
  }

  /** A clean-up pass over all roles that changes nothing had nothing to do. */
  lemma NothingCleared(s: Snapshot, order: seq<Role>)
    requires ClearAll(s, order) == s
    requires forall role :: role in s.roles ==> role in order
    ensures !HasRetiring(s)
  {
    forall role | role in s.roles ensures s.roles[role].retiring == [] {
      ClearAllKeepsRest(s, order, role);
    }
  }

  lemma BoundedRevision(c: Config, s: Snapshot, o: Objects)
    requires Inv(c, s, o)
    ensures s.revision <= MAX_UINT64
  {
  }

  lemma InvIsValid(c: Config, s: Snapshot, o: Objects)
    requires Inv(c, s, o)
    ensures ValidSnapshot(c, s)
  {
  }

  lemma RolesAreOrdered(c: Config, s: Snapshot, o: Objects)
    requires ValidConfig(c) && Inv(c, s, o)
    ensures forall role :: role in s.roles ==> role in c.order
  {
    forall role | role in s.roles ensures role in c.order {
      assert ValidRoleState(c, role, s.roles[role]);
    }
  }

  /** What is still pending during a pass is pending as it was. */
  lemma {:induction false} ResolveAllKeepsEntries(s: Snapshot, order: seq<Role>, o: Objects, role: Role)
    ensures var s' := ResolveAll(s, order, o);
            && s'.version == s.version && s'.revision == s.revision
            && (role in s'.pending ==> role in s.pending && s'.pending[role] == s.pending[role])
  {
    if order != [] { ResolveAllKeepsEntries(s, order[..|order| - 1], o, role); }
  }

  // ---------------------------------------------------------------- whole runs

  datatype Operation = DoOpen | DoEnsure(role: Role, now: nat) | DoRotate(role: Role, now: nat) | DoReconcile

  /** Any sequence of operations, each in a process of its own, each failing or crashing wherever it may. */
  method Run(tpm: Tpm, store: MetadataStore, config: Config, operations: seq<Operation>)
    requires ValidConfig(config) && Inv(config, store.durable, tpm.objects)
    requires GoodHistory(config, store.history) && EndsWith(store.history, store.durable)
    modifies tpm, store
    ensures Inv(config, store.durable, tpm.objects)
    ensures GoodHistory(config, store.history) && EndsWith(store.history, store.durable)
  {
    hide Inv, GoodHistory, ValidConfig;
    for n := 0 to |operations|
      invariant Inv(config, store.durable, tpm.objects)
      invariant GoodHistory(config, store.history) && EndsWith(store.history, store.durable)
    {
      var manager := new Manager(tpm, store, config);
      match operations[n] {
        case DoOpen => var _ := manager.Open();
        case DoEnsure(role, now) => var _, _ := manager.EnsureRole(role, now);
        case DoRotate(role, now) => var _, _ := manager.Rotate(role, now);
        case DoReconcile => var _ := manager.ReconcileRetiringOperation();
      }
    }
  }

  /** The state recovery promises: nothing pending or retiring, every active key live, and nothing else in the pools. */
  ghost predicate Clean(c: Config, s: Snapshot, o: Objects) {
    && Settled(s)
    && (forall role :: role in s.roles ==> Live(o, s.roles[role].active))
    && (forall role, h :: InPool(c, role, h) ==> (h in o <==> role in s.roles && s.roles[role].active.handle == h))
  }

  /** An open whose calls all answer succeeds from every state a run can leave. It keeps every active key or replaces it
      by the pending one that was created, and takes no more saves than were left room for. */
  method Recover(tpm: Tpm, store: MetadataStore, config: Config) returns (out: Outcome)
    requires ValidConfig(config) && Inv(config, store.durable, tpm.objects)
    requires GoodHistory(config, store.history) && EndsWith(store.history, store.durable)
    requires tpm.Quiet() && store.Quiet()
    modifies tpm, store
    ensures out.Ok? && Clean(config, store.durable, tpm.objects)
    ensures HasRecovered(old(store.durable), old(tpm.objects), store.durable)
    ensures store.durable.revision <= old(RecoveryEnds(store.durable)) <= MAX_UINT64
    ensures Inv(config, store.durable, tpm.objects)
    ensures GoodHistory(config, store.history) && EndsWith(store.history, store.durable)
  {
    hide Inv, GoodHistory, ValidConfig;
    Recoverable(config, store.durable, tpm.objects);
    var manager := new Manager(tpm, store, config);
    out := manager.Open();
    SettledMeansExact(config, store.durable, tpm.objects);
  }

  /** From an empty store and free pools: after any run, with any faults and crashes, recovery succeeds as soon as the
      devices answer, and leaves exactly the active keys. Every snapshot ever visible was valid, with at most one
      unsettled entry. */
  method RunThenRecover(tpm: Tpm, store: MetadataStore, config: Config, operations: seq<Operation>,
                        repairedTpm: nat -> Fault, repairedStore: nat -> Fault, material: nat -> Material)
    returns (out: Outcome)
    requires ValidConfig(config)
    requires store.durable == EmptySnapshot() && store.history == [EmptySnapshot()]
    requires forall role, h :: InPool(config, role, h) ==> h !in tpm.objects
    requires forall n :: repairedTpm(n) == Answers && repairedStore(n) == Answers && Usable(material(n))
    modifies tpm, store
    ensures out.Ok? && Clean(config, store.durable, tpm.objects)
    ensures GoodHistory(config, store.history) && EndsWith(store.history, store.durable)
  {
    InitiallyInv(config, tpm.objects);
    EmptyHistory(config);
    hide Inv, GoodHistory, ValidConfig, Clean;
    Run(tpm, store, config, operations);
    tpm.Repair(repairedTpm, material);
    store.Repair(repairedStore);
    out := Recover(tpm, store, config);
  }

  lemma EmptyHistory(c: Config)
    ensures GoodHistory(c, [EmptySnapshot()])
  {
    assert SoundAt(c, [EmptySnapshot()], 0);
  }
}
