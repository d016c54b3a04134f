/** The publishing transaction: import, inspect, pin, sign, store the intent, publish, store the completion. */
module Publishing {
  import opened Common
  import opened Faults
  import opened Codec
  import opened PublicData
  import opened PublicSnapshots
  import opened IpnsRecord
  import opened Kubo
  import opened PublicationStates

  datatype Receipt = Receipt(publicationID: Option<Digest>, digest: Option<Digest>, ipnsName: Bytes,
                             rootText: Bytes, sequence: nat)

  /** The durable publication state: one document, replaced atomically and only by its successor. */
  class StateStore {
    const nm: Naming
    const faults: nat -> Fault
    var calls: nat
    var durable: State
    /** Every state ever visible, oldest first. */
    ghost var history: seq<State>

    constructor (nm: Naming, faults: nat -> Fault)
      ensures this.nm == nm && this.faults == faults && calls == 0
      ensures durable == EMPTY_STATE && history == [EMPTY_STATE]
    {
      this.nm, this.faults := nm, faults;
      calls, durable, history := 0, EMPTY_STATE, [EMPTY_STATE];
    }

    method Load() returns (out: Outcome, state: State)
      modifies this`calls
      ensures calls == old(calls) + 1
      ensures out == OutcomeOf(faults(old(calls)))
      ensures out.Ok? ==> state == durable
    {
      out, state := OutcomeOf(faults(calls)), durable;
      calls := calls + 1;
    }

    /** Whether the next commit of this state will be accepted, if the file system cooperates. */
    ghost predicate Acceptable(expected: nat, next: State)
      reads this`durable
    {
      expected < MAX_UINT64 && next.revision == expected + 1 && ValidState(nm, next) && durable.revision == expected
    }

    method Commit(expected: nat, next: State) returns (out: Outcome)
      modifies this
      ensures old(Acceptable(expected, next)) ==>
                && calls == old(calls) + 1
                && out == OutcomeOf(faults(old(calls)))
                && durable == (if TookEffect(faults(old(calls))) then next else old(durable))
                && history == if TookEffect(faults(old(calls))) then old(history) + [next] else old(history)
      ensures !old(Acceptable(expected, next)) ==> out != Ok && durable == old(durable) && history == old(history)
    {
      if expected >= MAX_UINT64 || next.revision != expected + 1 { return Error; }
      if !ValidState(nm, next) { return Error; }
      var fault := faults(calls);
      calls := calls + 1;
      if durable.revision != expected { return if fault.Crashes? then Crash else Error; }
      if TookEffect(fault) { durable, history := next, history + [next]; }
      return OutcomeOf(fault);
    }
  }

  /** What the node and the network have seen; a handover is named by its number. */
  datatype Event =
    | Inspected(root: Cid, inspection: Inspection)
    | PinConfirmed(root: Cid)
    | HandedOver(number: nat)

  /** The content node. Its answers are arbitrary functions of the number of calls made so far. */
  class Node {
    const faults: nat -> Fault
    const roots: nat -> Cid
    const inspections: nat -> Inspection
    const pins: nat -> bool
    var calls: nat
    ghost var trace: seq<Event>
    /** Everything ever handed over, and for each the number of the state that was durable at that moment. */
    ghost var handed: seq<Handover>
    ghost var versions: seq<nat>
    ghost var taken: nat

    constructor (faults: nat -> Fault, roots: nat -> Cid, inspections: nat -> Inspection, pins: nat -> bool)
      ensures this.faults == faults && this.roots == roots && this.inspections == inspections && this.pins == pins
      ensures calls == 0 && trace == [] && handed == [] && versions == [] && taken == 0
    {
      this.faults, this.roots, this.inspections, this.pins := faults, roots, inspections, pins;
      calls, trace, handed, versions, taken := 0, [], [], [], 0;
    }

    method Import(files: seq<Document>) returns (out: Outcome, root: Cid)
      modifies this`calls
      ensures calls == old(calls) + 1 && out == OutcomeOf(faults(old(calls))) && root == roots(old(calls))
    {
      out, root := OutcomeOf(faults(calls)), roots(calls);
      calls := calls + 1;
    }

    method Inspect(root: Cid) returns (out: Outcome, inspection: Inspection)
      modifies this`calls, this`trace
      ensures calls == old(calls) + 1 && out == OutcomeOf(faults(old(calls))) && inspection == inspections(old(calls))
      ensures trace == old(trace) + [Inspected(root, inspection)]
    {
      out, inspection := OutcomeOf(faults(calls)), inspections(calls);
      trace := trace + [Inspected(root, inspection)];
      calls := calls + 1;
    }

    method Pin(root: Cid) returns (out: Outcome)
      modifies this`calls
      ensures calls == old(calls) + 1 && out == OutcomeOf(faults(old(calls)))
    {
      out := OutcomeOf(faults(calls));
      calls := calls + 1;
    }

    method Pinned(root: Cid) returns (out: Outcome, pinned: bool)
      modifies this`calls, this`trace
      ensures calls == old(calls) + 1 && out == OutcomeOf(faults(old(calls))) && pinned == pins(old(calls))
      ensures trace == if out.Ok? && pinned then old(trace) + [PinConfirmed(root)] else old(trace)
    {
      out, pinned := OutcomeOf(faults(calls)), pins(calls);
      if out.Ok? && pinned { trace := trace + [PinConfirmed(root)]; }
      calls := calls + 1;
    }

    /** The record has left the process, whatever the answer. */
    method PublishRecord(record: SignedRecord, ghost store: StateStore) returns (out: Outcome)
      requires store.history != []
      modifies this`calls, this`trace, this`handed, this`versions, this`taken
      ensures trace == old(trace) + [HandedOver(|old(handed)|)]
      ensures handed == old(handed) + [Handing(record, store.durable)]
      ensures versions == old(versions) + [|store.history| - 1]
      ensures taken == old(taken) + if out.Ok? then 1 else 0
      ensures calls == old(calls) + 1 && out == OutcomeOf(faults(old(calls)))
    {
      out := OutcomeOf(faults(calls));
      trace := trace + [HandedOver(|handed|)];
      handed := handed + [Handing(record, store.durable)];
      versions := versions + [|store.history| - 1];
      if out.Ok? { taken := taken + 1; }
      calls := calls + 1;
    }
  }

  /** The signing key behind its device. */
  class Signer {
    const key: PublicKey
    const faults: nat -> Fault
    const signatures: (nat, Bytes) -> Bytes
    var calls: nat

    constructor (key: PublicKey, faults: nat -> Fault, signatures: (nat, Bytes) -> Bytes)
      ensures this.key == key && this.faults == faults && this.signatures == signatures && calls == 0
    {
      this.key, this.faults, this.signatures := key, faults, signatures;
      calls := 0;
    }

    method Sign(payload: Bytes) returns (out: Outcome, signature: Bytes)
      modifies this`calls
      ensures calls == old(calls) + 1 && out == OutcomeOf(faults(old(calls)))
              && signature == signatures(old(calls), payload)
    {
      out, signature := OutcomeOf(faults(calls)), signatures(calls, payload);
      calls := calls + 1;
    }
  }

  /** What was handed over was pending in this version of the store. */
  ghost predicate PendingThen(h: Handover, version: nat, history: seq<State>) {
    version < |history| && history[version].pending.Some? && Head(history[version]) == Some(h)
  }

  /** Everything handed over was pending in the version that was durable at its moment. */
  ghost predicate AllPending(handed: seq<Handover>, versions: seq<nat>, history: seq<State>) {
    && |versions| == |handed|
    && (forall n :: 0 <= n < |handed| ==> PendingThen(handed[n], versions[n], history))
  }

  lemma PendingStays(handed: seq<Handover>, versions: seq<nat>, history: seq<State>, longer: seq<State>)
    requires AllPending(handed, versions, history) && history <= longer
    ensures AllPending(handed, versions, longer)
  {
    forall n | 0 <= n < |handed|
      ensures PendingThen(handed[n], versions[n], longer)
    {
      assert PendingThen(handed[n], versions[n], history);
    }
  }

  ghost predicate Traced(n: nat, start: nat, trace: seq<Event>) {
    exists k :: start <= k < |trace| && trace[k] == HandedOver(n)
  }

  /** In a call that began at `start`, with `first` things handed over before, a record is handed over only behind an
      accepted inspection and a confirmed pin of its own root; and every handover of the call is on the trace. */
  ghost predicate SafeCall(nm: Naming, h: Hashing, files: seq<Document>, start: nat, first: nat, trace: seq<Event>,
                           handed: seq<Handover>) {
    && (forall k :: start <= k < |trace| && trace[k].HandedOver? ==>
          && k >= start + 2
          && trace[k - 2].Inspected? && trace[k - 1] == PinConfirmed(trace[k - 2].root)
          && Accepts(h, trace[k - 2].root, files, trace[k - 2].inspection)
          && trace[k].number < |handed| && RootCid(nm, handed[trace[k].number].record) == Some(trace[k - 2].root))
    && (forall n :: first <= n < |handed| ==> Traced(n, start, trace))
  }

  /** A call that began at `start` inspected and pinned this root before anything else. */
  ghost predicate PinnedFirst(h: Hashing, files: seq<Document>, root: Cid, start: nat, trace: seq<Event>) {
    && |trace| >= start + 2
    && trace[start].Inspected? && trace[start].root == root
    && Accepts(h, root, files, trace[start].inspection)
    && trace[start + 1] == PinConfirmed(root)
  }

  /** It has done nothing else yet. */
  ghost predicate JustPinned(h: Hashing, files: seq<Document>, root: Cid, start: nat, trace: seq<Event>) {
    |trace| == start + 2 && PinnedFirst(h, files, root, start, trace)
  }

  ghost predicate NothingHanded(start: nat, trace: seq<Event>) {
    forall k :: start <= k < |trace| ==> !trace[k].HandedOver?
  }

  lemma HandedIsSafe(nm: Naming, h: Hashing, files: seq<Document>, root: Cid, start: nat, trace: seq<Event>,
                     handed: seq<Handover>, more: Handover)
    requires JustPinned(h, files, root, start, trace) && RootCid(nm, more.record) == Some(root)
    ensures SafeCall(nm, h, files, start, |handed|, trace + [HandedOver(|handed|)], handed + [more])
    ensures PinnedFirst(h, files, root, start, trace + [HandedOver(|handed|)])
  {
    hide Accepts, RootCid;
    assert (trace + [HandedOver(|handed|)])[|trace|] == HandedOver(|handed|);
  }

  /** What the last commit makes of the durable state, if the handover before it was taken. */
  ghost predicate CompletionDecides(before: State, after: State, fault: Fault, out: Outcome)
    requires before.pending.Some?
  {
    out == OutcomeOf(fault) && after == if TookEffect(fault) then Completed(before) else before
  }

  class Publisher {
    const nm: Naming
    const rules: Rules
    const hashing: Hashing
    const policy: RecordPolicy
    const clock: nat -> Instant
    const store: StateStore
    const node: Node
    const signer: Signer
    var ticks: nat

    constructor (nm: Naming, rules: Rules, hashing: Hashing, policy: RecordPolicy, clock: nat -> Instant,
                 store: StateStore, node: Node, signer: Signer)
      requires nm.Coherent() && store.nm == nm && ValidPolicy(policy)
      requires signer.key.name != [] && nm.canonicalName(signer.key.name)
      requires ValidState(nm, store.durable) && Ordered(node.handed) && Covered(store.durable, node.handed)
      requires EndsWith(store.history, store.durable) && AllPending(node.handed, node.versions, store.history)
      ensures this.nm == nm && this.rules == rules && this.hashing == hashing && this.policy == policy
              && this.clock == clock
      ensures this.store == store && this.node == node && this.signer == signer && ticks == 0 && Sound()
    {
      this.nm, this.rules, this.hashing, this.policy, this.clock := nm, rules, hashing, policy, clock;
      this.store, this.node, this.signer := store, node, signer;
      ticks := 0;
    }

    /** The durable state is valid, and everything ever handed over was durably pending, is in order and not
        after it. */
    ghost predicate Sound()
      reads store`durable, store`history, node`handed, node`versions
    {
      && EndsWith(store.history, store.durable) && AllPending(node.handed, node.versions, store.history)
      && nm.Coherent() && store.nm == nm && ValidPolicy(policy)
      && signer.key.name != [] && nm.canonicalName(signer.key.name)
      && ValidState(nm, store.durable)
      && Ordered(node.handed) && Covered(store.durable, node.handed)
    }

    // What it takes for a publication to go through.

    /** The node answers, and shows and keeps these files under this root. */
    ghost predicate NodeWilling(files: seq<Document>, root: Cid)
      reads node`calls
    {
      forall n :: node.calls <= n ==>
             node.faults(n) == Answers && node.pins(n) && Accepts(hashing, root, files, node.inspections(n))
    }

    /** The signer answers its next call with a signature of what it is given. */
    ghost predicate SignerWilling()
      reads signer`calls
    {
      signer.faults(signer.calls) == Answers
      && forall payload :: SignsWell(payload, signer.signatures(signer.calls, payload))
    }

    ghost predicate SignsWell(payload: Bytes, signature: Bytes) {
      signature != [] && signer.key.verifies(payload, signature)
    }

    /** The readings of one call do not go back, and stay before a record made at the first of them is stale or
        expires. */
    ghost predicate Steady(first: nat) {
      && clock(first) >= ZERO_TIME + NANOSECONDS
      && clock(first) <= clock(first + 1) <= clock(first + 2)
      && clock(first + 2) - Whole(clock(first)) <= policy.maxStaleness
      && clock(first + 2) < Whole(clock(first)) + policy.validity
    }

    /** There is a next sequence and a next revision. */
    ghost predicate HasRoom()
      reads store`durable
    {
      store.durable.highSequence < MAX_UINT64 && store.durable.revision < MAX_UINT64
    }

    /** This record was made and well signed at this time. */
    ghost predicate FreshlySigned(r: SignedRecord, root: Cid, now: Instant) {
      && r == NewRecord(nm, signer.key, policy, root, r.sequence, now).(signature := r.signature)
      && SignsWell(PayloadBytes(SIGNATURE_DOMAIN, NewRecord(nm, signer.key, policy, root, r.sequence, now)),
                   r.signature)
    }

    method Now() returns (now: Instant)
      modifies this`ticks
      ensures now == clock(old(ticks)) && ticks == old(ticks) + 1
    {
      now := clock(ticks);
      ticks := ticks + 1;
    }

    method InspectAndPin(files: seq<Document>, root: Cid) returns (out: Outcome)
      requires DistinctPaths(files)
      modifies node`calls, node`trace
      ensures |node.trace| >= |old(node.trace)| && node.trace[..|old(node.trace)|] == old(node.trace)
      ensures NothingHanded(|old(node.trace)|, node.trace)
      ensures out.Ok? ==> JustPinned(hashing, files, root, |old(node.trace)|, node.trace) && root.version == 1
      ensures old(NodeWilling(files, root)) && root.version == 1 ==> NodeWilling(files, root) && out.Ok?
    {
      hide Accepts;
      if root.version != 1 { return Error; }
      var inspected, inspection := node.Inspect(root);
      if !inspected.Ok? { return inspected; }
      var ok := ValidateImportedSnapshot(hashing, root, files, inspection);
      if !ok { return Error; }
      var pinning := node.Pin(root);
      if !pinning.Ok? { return pinning; }
      var checking, pinned := node.Pinned(root);
      if !checking.Ok? { return checking; }
      return if pinned then Ok else Error;
    }

    /** Signs a record for this root with this sequence; what comes back is bound, whatever the signer answered. */
    method CreateSignedRecord(root: Cid, sequence: nat, now: Instant) returns (out: Outcome, record: SignedRecord)
      requires root.version == 1 && ValidPolicy(policy)
      modifies signer`calls
      ensures out.Ok? ==> Binds(nm, signer.key, record, root) && record.sequence == sequence
      ensures old(SignerWilling()) && nm.Coherent() && nm.canonicalName(signer.key.name) && sequence != 0
              && now >= ZERO_TIME + NANOSECONDS
              ==> out.Ok? && FreshlySigned(record, root, now)
    {
      hide Binds, Encodable, PayloadBytes, Whole, ValidPolicy;
      record := NewRecord(nm, signer.key, policy, root, sequence, now);
      if sequence == 0 || now == ZERO_TIME { return Error, record; }
      if nm.Coherent() && nm.canonicalName(signer.key.name) && now >= ZERO_TIME + NANOSECONDS {
        NewRecordEncodable(nm, signer.key, policy, root, sequence, now);
      }
      var payload := UnsignedPayload(nm, record);
      if payload.None? { return Error, record; }
      var signing, signature := signer.Sign(payload.value);
      if !signing.Ok? { return signing, record; }
      var expectation := Expectation(root, 0, ZERO_TIME, Whole(now));
      WholeFacts(now);
      if nm.Coherent() && nm.canonicalName(signer.key.name) && now >= ZERO_TIME + NANOSECONDS
         && SignsWell(payload.value, signature) {
        NewRecordTimes(policy, now);
        NewRecordPasses(nm, signer.key, policy, root, sequence, now, signature, expectation);
      }
      record := record.(signature := signature);
      if RecordFaultOf(nm, signer.key, policy, record, expectation).Some? { return Error, record; }
      return Ok, record;
    }

    /** Stores the intent to publish a freshly signed record under the next sequence. */
    method PrepareRecord(snapshot: PublicSnapshot, root: Cid) returns (out: Outcome)
      requires Sound() && OursToContinue(nm, signer.key, store.durable)
      requires snapshot.digest == snapshot.publicationID && snapshot.stateRevision != 0
      requires RevisionAdmits(store.durable, snapshot) && !CompletedMatches(store.durable, snapshot)
      requires store.durable.pending.Some? ==> PendingMatches(store.durable.pending.value, snapshot)
      requires root.version == 1
      modifies this`ticks, store, signer`calls
      ensures Sound()
      ensures SameLast(old(store.durable), store.durable)
      ensures out.Ok? ==>
                && store.durable.pending.Some? && PendingMatches(store.durable.pending.value, snapshot)
                && nm.CanonicalRoot(store.durable.pending.value.rootText) == Some(root)
                && store.durable.highSequence == old(store.durable.highSequence) + 1
                && store.durable.revision == old(store.durable.revision) + 1
      ensures old(store.history) <= store.history
      ensures old(store.faults(store.calls) == Answers && SignerWilling() && HasRoom())
              && clock(old(ticks)) >= ZERO_TIME + NANOSECONDS
              ==> out.Ok? && ticks == old(ticks) + 1 && store.calls == old(store.calls) + 1
                  && FreshlySigned(store.durable.pending.value.record, root, clock(old(ticks)))
    {
      hide Binds, ValidState, OursToContinue, RevisionAdmits, Covered, Ordered, ValidPolicy;
      var current := store.durable;
      assert ValidState(nm, current) && (current.ipnsName == [] || current.ipnsName == signer.key.name) by {
        ContinuedName(nm, signer.key, current);
      }
      if current.highSequence == MAX_UINT64 || current.revision >= MAX_UINT64 { return Error; }
      var now := Now();
      var signing, record := CreateSignedRecord(root, current.highSequence + 1, now);
      if !signing.Ok? { return signing; }
      var next := Prepared(nm, current, signer.key.name, snapshot, root, record);
      PreparedIsValid(nm, signer.key, current, snapshot, root, record);
      PrepareKeepsCover(nm, current, signer.key.name, snapshot, root, record, node.handed);
      PendingStays(node.handed, node.versions, store.history, store.history + [next]);
      RootTextIsCanonical(nm, root);
      if !ValidState(nm, next) { return Error; }
      out := store.Commit(current.revision, next);
    }

    /** Handing over what is pending now, and completing it then, keeps everything sound. */
    lemma HandingFacts(files: seq<Document>, start: nat, root: Cid)
      requires Sound() && store.durable.pending.Some?
      requires nm.CanonicalRoot(store.durable.pending.value.rootText) == Some(root)
      requires JustPinned(hashing, files, root, start, node.trace)
      ensures var s := store.durable;
              var handed, versions := node.handed + [Head(s).value], node.versions + [|store.history| - 1];
              var trace := node.trace + [HandedOver(|node.handed|)];
              && Ordered(handed) && Covered(s, handed) && Covered(Completed(s), handed)
              && AllPending(handed, versions, store.history)
              && AllPending(handed, versions, store.history + [Completed(s)])
              && SafeCall(nm, hashing, files, start, |node.handed|, trace, handed)
              && PinnedFirst(hashing, files, root, start, trace)
              && ValidState(nm, Completed(s)) && Completed(s).lastSequence > s.lastSequence
    {
      hide ValidState, Accepts, Covered, Ordered, ValidPolicy, SafeCall, JustPinned, PinnedFirst, RootCid, AllPending;
      var s := store.durable;
      var handed, versions := node.handed + [Head(s).value], node.versions + [|store.history| - 1];
      PendingRoot(nm, s);
      HandingOverKeepsOrder(nm, s, node.handed);
      CompleteKeepsCover(s, handed);
      CompletedIsValid(nm, s);
      CompletionMovesLast(nm, s);
      HandedIsSafe(nm, hashing, files, root, start, node.trace, node.handed, Head(s).value);
      OneMorePending(node.handed, node.versions, store.history, s);
      PendingStays(handed, versions, store.history, store.history + [Completed(s)]);
    }

    /** Hands the durably pending record over and stores the completion. */
    method HandOver(ghost files: seq<Document>, ghost start: nat, ghost root: Cid) returns (out: Outcome)
      requires Sound() && store.durable.pending.Some? && store.durable.revision < MAX_UINT64
      requires nm.CanonicalRoot(store.durable.pending.value.rootText) == Some(root)
      requires JustPinned(hashing, files, root, start, node.trace)
      modifies store, node`calls, node`trace, node`handed, node`versions, node`taken
      ensures Sound() && old(store.history) <= store.history
      ensures node.trace == old(node.trace) + [HandedOver(|old(node.handed)|)]
      ensures node.handed == old(node.handed) + [Head(old(store.durable)).value]
      ensures node.versions == old(node.versions) + [|old(store.history)| - 1]
      ensures SafeCall(nm, hashing, files, start, |old(node.handed)|, node.trace, node.handed)
      ensures PinnedFirst(hashing, files, root, start, node.trace)
      ensures out.Ok? ==> store.durable == Completed(old(store.durable))
      ensures old(NodeWilling(files, root)) ==>
                && node.taken == old(node.taken) + 1 && store.calls == old(store.calls) + 1
                && CompletionDecides(old(store.durable), store.durable, store.faults(old(store.calls)), out)
      ensures !out.Ok? ==> (!SameLast(old(store.durable), store.durable) <==>
                              node.taken > old(node.taken) && store.calls > 0
                              && TookEffect(store.faults(store.calls - 1)))
    {
      var prepared := store.durable;
      hide ValidState, Accepts, Covered, Ordered, ValidPolicy, SafeCall, JustPinned, PinnedFirst, RootCid, AllPending;
      HandingFacts(files, start, root);
      var publishing := node.PublishRecord(prepared.pending.value.record, store);
      if !publishing.Ok? { return publishing; }
      var completed := Completed(prepared);
      if !ValidState(nm, completed) { return Error; }
      out := store.Commit(prepared.revision, completed);
    }

    /** What the pending record is measured against at this moment. */
    ghost predicate PendingPasses(s: State, now: Instant) {
      && s.pending.Some? && nm.CanonicalRoot(s.pending.value.rootText).Some?
      && RecordFaultOf(nm, signer.key, policy, s.pending.value.record,
                       Expectation(nm.CanonicalRoot(s.pending.value.rootText).value, s.lastSequence, LastIssuedAt(s),
                                   now)).None?
    }

    /** What is pending is this snapshot, and its record passes now. */
    ghost predicate ReadyToPublish(snapshot: PublicSnapshot)
      reads this`ticks, store`durable
    {
      && PendingPasses(store.durable, clock(ticks))
      && PendingMatches(store.durable.pending.value, snapshot)
      && store.durable.revision < MAX_UINT64
    }

    /** Checks the pending record once more, then hands it over. */
    method PublishPrepared(snapshot: PublicSnapshot, ghost start: nat,
                           ghost root: Cid) returns (out: Outcome, receipt: Option<Receipt>)
      requires Sound()
      requires store.durable.pending.Some? ==> nm.CanonicalRoot(store.durable.pending.value.rootText) == Some(root)
      requires JustPinned(hashing, snapshot.files, root, start, node.trace)
      modifies this`ticks, store, node`calls, node`trace, node`handed, node`versions, node`taken
      ensures Sound() && old(store.history) <= store.history
      ensures SafeCall(nm, hashing, snapshot.files, start, |old(node.handed)|, node.trace, node.handed)
      ensures old(node.trace) <= node.trace && old(node.handed) <= node.handed
      ensures PinnedFirst(hashing, snapshot.files, root, start, node.trace)
      ensures out.Ok? ==> CompletedMatches(store.durable, snapshot) && receipt == Some(ReceiptOf(store.durable))
                          && nm.CanonicalRoot(store.durable.lastRootText) == Some(root)
      ensures !out.Ok? ==> (!SameLast(old(store.durable), store.durable) <==>
                              node.taken > old(node.taken) && store.calls > 0
                              && TookEffect(store.faults(store.calls - 1)))
      ensures old(NodeWilling(snapshot.files, root) && ReadyToPublish(snapshot)) ==>
                && node.taken == old(node.taken) + 1 && store.calls == old(store.calls) + 1
                && CompletionDecides(old(store.durable), store.durable, store.faults(old(store.calls)), out)
    {
      hide RecordFaultOf, ValidState, Accepts, Covered, Ordered, ValidPolicy, ReceiptOf, PendingMatches;
      hide CompletedMatches;
      var prepared := store.durable;
      NothingHandedIsSafe(nm, hashing, snapshot.files, start, node.trace, node.handed);
      if prepared.pending.None? { return Error, None; }
      var p := prepared.pending.value;
      if !PendingMatches(p, snapshot) || prepared.revision >= MAX_UINT64 { return Error, None; }
      var found := nm.CanonicalRoot(p.rootText);
      if found.None? { return Error, None; }
      var now := Now();
      var fault := RecordFaultOf(nm, signer.key, policy, p.record,
                                 Expectation(found.value, prepared.lastSequence, LastIssuedAt(prepared), now));
      if fault.Some? { return Error, None; }
      MatchCarriesOver(nm, prepared, snapshot);
      out := HandOver(snapshot.files, start, root);
      receipt := if out.Ok? then Some(ReceiptOf(store.durable)) else None;
    }

    /** The completed record still holds at this moment. */
    ghost predicate CompletedHolds(s: State, now: Instant) {
      && s.lastRecord.Some? && s.lastSequence > 0 && nm.CanonicalRoot(s.lastRootText).Some?
      && RecordFaultOf(nm, signer.key, policy, s.lastRecord.value,
                       Expectation(nm.CanonicalRoot(s.lastRootText).value, s.lastSequence - 1, ZERO_TIME, now)).None?
    }

    /** A publication completed before is only inspected and pinned again, if its record still holds. */
    method Confirm(snapshot: PublicSnapshot, state: State) returns (out: Outcome)
      requires DistinctPaths(snapshot.files) && ValidState(nm, state) && CompletedMatches(state, snapshot)
      modifies this`ticks, node`calls, node`trace
      ensures NothingHanded(|old(node.trace)|, node.trace)
      ensures |node.trace| >= |old(node.trace)| && node.trace[..|old(node.trace)|] == old(node.trace)
      ensures out.Ok? ==>
                && CompletedHolds(state, clock(old(ticks)))
                && PinnedFirst(hashing, snapshot.files, nm.CanonicalRoot(state.lastRootText).value, |old(node.trace)|,
                               node.trace)
      ensures CompletedHolds(state, clock(old(ticks)))
              && old(NodeWilling(snapshot.files, nm.CanonicalRoot(state.lastRootText).value))
              ==> out.Ok?
    {
      hide ValidPending, RecordFaultOf;
      var found := nm.CanonicalRoot(state.lastRootText);
      if found.None? { return Error; }
      var now := Now();
      if RecordFaultOf(nm, signer.key, policy, state.lastRecord.value,
                       Expectation(found.value, state.lastSequence - 1, ZERO_TIME, now)).Some? { return Error; }
      out := InspectAndPin(snapshot.files, found.value);
    }

    /** The root to publish: the pending one, or a fresh import. */
    method ChooseRoot(snapshot: PublicSnapshot, state: State) returns (out: Outcome, root: Cid)
      modifies node`calls
      ensures out.Ok? && state.pending.Some? ==>
                PendingMatches(state.pending.value, snapshot)
                && nm.CanonicalRoot(state.pending.value.rootText) == Some(root)
      ensures node.calls >= old(node.calls)
      ensures state == store.durable && old(Reachable(snapshot)) ==> out.Ok? && root == old(Target(snapshot))
    {
      if state.pending.Some? {
        if !PendingMatches(state.pending.value, snapshot) { return Error, Cid(0, false, []); }
        var found := nm.CanonicalRoot(state.pending.value.rootText);
        if found.None? { return Error, Cid(0, false, []); }
        return Ok, found.value;
      }
      out, root := node.Import(snapshot.files);
    }

    /** No record comes from the clock's future, or before the one published last. */
    ghost predicate InStep(s: State, now: Instant) {
      && LastIssuedAt(s) <= now
      && (s.pending.Some? ==> LastIssuedAt(s) <= s.pending.value.record.issuedAt <= now + policy.clockSkew)
    }

    lemma FreshPasses(s: State, root: Cid, first: nat, made: Instant, now: Instant)
      requires nm.Coherent() && nm.canonicalName(signer.key.name) && ValidPolicy(policy) && ValidState(nm, s)
      requires s.pending.Some?
      requires nm.CanonicalRoot(s.pending.value.rootText) == Some(root)
      requires FreshlySigned(s.pending.value.record, root, made)
      requires Steady(first) && clock(first) <= made <= now <= clock(first + 2) && LastIssuedAt(s) <= made
      ensures PendingPasses(s, now)
    {
      hide RecordFaultOf, PayloadBytes;
      var r := s.pending.value.record;
      var e := Expectation(root, s.lastSequence, LastIssuedAt(s), now);
      assert r.sequence > s.lastSequence && (s.lastRecord.Some? ==> WholeSecond(s.lastRecord.value.issuedAt));
      WholeFacts(made);
      WholeRises(clock(first), made);
      NotAfterWhole(LastIssuedAt(s), made);
      hide Whole;
      NewRecordPasses(nm, signer.key, policy, root, r.sequence, made, r.signature, e);
    }

    lemma StandingPasses(s: State, now: Instant)
      requires ValidPolicy(policy) && OursToContinue(nm, signer.key, s) && s.pending.Some? && now > ZERO_TIME
      requires !NeedsRefresh(policy, s.pending.value.record, now) && InStep(s, now)
      ensures PendingPasses(s, now)
    {
      hide Binds;
      assert s.pending.value.record.sequence > s.lastSequence;
      hide ValidState;
    }

    /** A record has to be signed and stored first: there is none pending, or one that no longer holds. */
    ghost predicate Preparing()
      reads this`ticks, store`durable
    {
      store.durable.pending.None? || NeedsRefresh(policy, store.durable.pending.value.record, clock(ticks))
    }

    /** Signs and stores a new record, unless one is pending that still holds. */
    method PrepareIfNeeded(snapshot: PublicSnapshot, root: Cid) returns (out: Outcome)
      requires Sound() && OursToContinue(nm, signer.key, store.durable) && root.version == 1
      requires snapshot.digest == snapshot.publicationID && snapshot.stateRevision != 0
      requires RevisionAdmits(store.durable, snapshot) && !CompletedMatches(store.durable, snapshot)
      requires store.durable.pending.Some? ==>
                 PendingMatches(store.durable.pending.value, snapshot)
                 && nm.CanonicalRoot(store.durable.pending.value.rootText) == Some(root)
      modifies this`ticks, store, signer`calls
      ensures Sound() && old(store.history) <= store.history
      ensures SameLast(old(store.durable), store.durable)
      ensures out.Ok? ==>
                && store.durable.pending.Some? && PendingMatches(store.durable.pending.value, snapshot)
                && nm.CanonicalRoot(store.durable.pending.value.rootText) == Some(root)
      ensures old(Able(store.calls)) ==>
                out.Ok? && ReadyToPublish(snapshot)
                && store.calls == old(store.calls) + if old(Preparing()) then 1 else 0
    {
      hide ValidState, OursToContinue, RevisionAdmits, Covered, Ordered, ValidPolicy, CompletedMatches;
      hide PendingMatches, FreshlySigned;
      hide PendingPasses, Binds, RecordFaultOf;
      ghost var before := store.durable;
      if store.durable.pending.Some? {
        var now := Now();
        if !NeedsRefresh(policy, store.durable.pending.value.record, now) {
          if old(Able(store.calls)) { StandingPasses(store.durable, clock(ticks)); }
          return Ok;
        }
      }
      out := PrepareRecord(snapshot, root);
      if old(Able(store.calls)) {
        assert LastIssuedAt(store.durable) == LastIssuedAt(before);
        FreshPasses(store.durable, root, old(ticks), clock(ticks - 1), clock(ticks));
      }
    }

    /** The clock is steady, and where a record has to be prepared, signer and store answer and there is room for it; a
        pending record that holds at the first reading holds at the second. `call` is the number of the next store
        call. */
    ghost predicate Able(call: nat)
      reads this`ticks, store`durable, signer`calls
    {
      && Steady(ticks) && InStep(store.durable, clock(ticks))
      && store.durable.revision + (if Preparing() then 1 else 0) < MAX_UINT64
      && (Preparing() ==> store.faults(call) == Answers && SignerWilling() && store.durable.highSequence < MAX_UINT64)
      && (!Preparing() ==> !NeedsRefresh(policy, store.durable.pending.value.record, clock(ticks + 1)))
    }

    /** The transaction proper, for a snapshot that is neither completed nor refused. */
    method Transact(snapshot: PublicSnapshot, state: State) returns (out: Outcome, receipt: Option<Receipt>)
      requires Sound() && state == store.durable && OursToContinue(nm, signer.key, state)
      requires snapshot.digest == snapshot.publicationID && snapshot.stateRevision != 0 && DistinctPaths(snapshot.files)
      requires RevisionAdmits(state, snapshot) && !CompletedMatches(state, snapshot)
      modifies this`ticks, store, node`calls, node`trace, node`handed, node`versions, node`taken, signer`calls
      ensures Sound() && old(store.history) <= store.history
      ensures old(node.trace) <= node.trace && old(node.handed) <= node.handed
      ensures SafeCall(nm, hashing, snapshot.files, |old(node.trace)|, |old(node.handed)|, node.trace, node.handed)
      ensures out.Ok? ==> CompletedMatches(store.durable, snapshot) && receipt == Some(ReceiptOf(store.durable))
                          && PinnedNow(snapshot.files, |old(node.trace)|)
      ensures !out.Ok? ==> (!SameLast(old(store.durable), store.durable) <==>
                              node.taken > old(node.taken) && store.calls > 0
                              && TookEffect(store.faults(store.calls - 1)))
      ensures old(Able(store.calls) && Reachable(snapshot)) ==>
                && node.taken == old(node.taken) + 1
                && store.calls == old(store.calls) + (if old(Preparing()) then 2 else 1)
                && EndsAsCommitted(snapshot, store.faults(store.calls - 1), out)
    {
      hide OursToContinue, ValidState, RevisionAdmits, Covered, Ordered, ValidPolicy, DistinctPaths, Accepts;
      hide CompletedMatches, PendingMatches, ReceiptOf, ReadyToPublish, SafeCall, InStep, SignerWilling, Able;
      hide Preparing, PinnedFirst;
      ghost var start := |node.trace|;
      var choosing, root := ChooseRoot(snapshot, state);
      if !choosing.Ok? {
        NothingHandedIsSafe(nm, hashing, snapshot.files, start, node.trace, node.handed);
        return choosing, None;
      }
      var pinning := InspectAndPin(snapshot.files, root);
      NothingHandedIsSafe(nm, hashing, snapshot.files, start, node.trace, node.handed);
      if !pinning.Ok? { return pinning, None; }
      out := PrepareIfNeeded(snapshot, root);
      NothingHandedIsSafe(nm, hashing, snapshot.files, start, node.trace, node.handed);
      if !out.Ok? { return out, None; }
      if PendingMatches(store.durable.pending.value, snapshot) { MatchCarriesOver(nm, store.durable, snapshot); }
      out, receipt := PublishPrepared(snapshot, start, root);
    }

    /** The root of what is completed was inspected and pinned in the call that began at `start`. */
    ghost predicate PinnedNow(files: seq<Document>, start: nat)
      reads store`durable, node`trace
    {
      && nm.CanonicalRoot(store.durable.lastRootText).Some?
      && PinnedFirst(hashing, files, nm.CanonicalRoot(store.durable.lastRootText).value, start, node.trace)
    }

    /** The call ends as its last commit did, and the publication is completed if that commit took effect. */
    ghost predicate EndsAsCommitted(snapshot: PublicSnapshot, fault: Fault, out: Outcome)
      reads store`durable
    {
      out == OutcomeOf(fault) && (TookEffect(fault) ==> CompletedMatches(store.durable, snapshot))
    }

    /** The root this snapshot would be published under. */
    ghost function Target(snapshot: PublicSnapshot): Cid
      reads store`durable, node`calls
    {
      if store.durable.pending.Some? && nm.CanonicalRoot(store.durable.pending.value.rootText).Some? then
        nm.CanonicalRoot(store.durable.pending.value.rootText).value
      else node.roots(node.calls)
    }

    /** The node is willing for that root, and nothing else is pending. */
    ghost predicate Reachable(snapshot: PublicSnapshot)
      reads store`durable, node`calls
    {
      && Target(snapshot).version == 1 && NodeWilling(snapshot.files, Target(snapshot))
      && (store.durable.pending.Some? ==>
            PendingMatches(store.durable.pending.value, snapshot)
            && nm.CanonicalRoot(store.durable.pending.value.rootText).Some?)
    }

    /** Everything a first or repeated attempt at an unfinished publication needs. */
    ghost predicate CanPublish(publication: Publication)
      reads this`ticks, store`calls, store`durable, signer`calls, node`calls
    {
      && Admissible(nm, rules, publication, signer.key.name)
      && OursToContinue(nm, signer.key, store.durable)
      && RevisionAdmits(store.durable, SnapshotOf(publication))
      && !CompletedMatches(store.durable, SnapshotOf(publication))
      && store.faults(store.calls) == Answers && Able(store.calls + 1) && Reachable(SnapshotOf(publication))
    }

    /** Everything a repeated attempt at a completed publication needs. */
    ghost predicate CanConfirm(publication: Publication)
      reads this`ticks, store`calls, store`durable, node`calls
    {
      && Admissible(nm, rules, publication, signer.key.name)
      && OursToContinue(nm, signer.key, store.durable) && CompletedMatches(store.durable, SnapshotOf(publication))
      && store.faults(store.calls) == Answers
      && CompletedHolds(store.durable, clock(ticks))
      && NodeWilling(publication.documents, nm.CanonicalRoot(store.durable.lastRootText).value)
    }

    /** Publishes one outbox item. */
    method Publish(publication: Publication) returns (out: Outcome, receipt: Option<Receipt>)
      requires Sound()
      modifies this`ticks, store, node`calls, node`trace, node`handed, node`versions, node`taken, signer`calls
      ensures Sound() && old(store.history) <= store.history
      ensures old(node.trace) <= node.trace && old(node.handed) <= node.handed
      ensures SafeCall(nm, hashing, publication.documents, |old(node.trace)|, |old(node.handed)|, node.trace,
                       node.handed)
      ensures out.Ok? ==> Admissible(nm, rules, publication, signer.key.name)
      ensures out.Ok? ==>
                CompletedMatches(store.durable, SnapshotOf(publication)) && receipt == Some(ReceiptOf(store.durable))
                          && PinnedNow(publication.documents, |old(node.trace)|)
      ensures !out.Ok? ==> (!SameLast(old(store.durable), store.durable) <==>
                              node.taken > old(node.taken) && store.calls > 0
                              && TookEffect(store.faults(store.calls - 1)))
      ensures old(CanPublish(publication)) ==>
                && node.taken == old(node.taken) + 1
                && store.calls == old(store.calls) + (if old(Preparing()) then 3 else 2)
                && EndsAsCommitted(SnapshotOf(publication), store.faults(store.calls - 1), out)
      ensures old(CanConfirm(publication)) ==> out.Ok?
    {
      hide Admissible, OursToContinue, ValidState, RevisionAdmits, Covered, Ordered, ValidPolicy, Accepts;
      hide ReceiptOf, Reachable, InStep, SignerWilling, CompletedMatches, RecordFaultOf, Steady, PinnedFirst, SafeCall;
      NothingHandedIsSafe(nm, hashing, publication.documents, |node.trace|, node.trace, node.handed);
      var made := NewPublicSnapshot(nm, rules, publication, signer.key.name);
      if made.None? { return Error, None; }
      var snapshot := made.value;
      AdmittedSnapshot(nm, rules, publication, signer.key.name);
      var loading, state := store.Load();
      if !loading.Ok? { return loading, None; }
      if !OursToContinue(nm, signer.key, state) { return Error, None; }
      CompletedIsAdmitted(state, snapshot);
      if !RevisionAdmits(state, snapshot) { return Error, None; }
      if CompletedMatches(state, snapshot) {
        ghost var start := |node.trace|;
        out := Confirm(snapshot, state);
        NothingHandedIsSafe(nm, hashing, snapshot.files, start, node.trace, node.handed);
        return out, if out.Ok? then Some(ReceiptOf(state)) else None;
      }
      out, receipt := Transact(snapshot, state);
    }
  }

  /** What is durable is the last state that became visible. */
  ghost predicate EndsWith(history: seq<State>, s: State) {
    history != [] && history[|history| - 1] == s
  }

  lemma OneMorePending(handed: seq<Handover>, versions: seq<nat>, history: seq<State>, s: State)
    requires AllPending(handed, versions, history) && EndsWith(history, s) && s.pending.Some?
    ensures AllPending(handed + [Head(s).value], versions + [|history| - 1], history)
  {
  }

  lemma NothingHandedIsSafe(nm: Naming, h: Hashing, files: seq<Document>, start: nat, trace: seq<Event>,
                            handed: seq<Handover>)
    ensures NothingHanded(start, trace) ==> SafeCall(nm, h, files, start, |handed|, trace, handed)
  {
  }

  lemma AdmittedSnapshot(nm: Naming, rules: Rules, p: Publication, name: Bytes)
    requires Admissible(nm, rules, p, name)
    ensures DistinctPaths(p.documents) && p.digest == p.id && p.stateRevision != 0
  {
    StrictIsDistinct(p.documents);
  }

  /** Any sequence of publications on one store and node, going on after every failure and crash. Everything ever handed
      over was pending in the state that was durable at that moment; sequences and trust revisions never fall, one
      sequence is one record, and every handover is on the trace. */
  method Run(publisher: Publisher, publications: seq<Publication>)
    requires publisher.Sound() && publisher.node.handed == []
    modifies publisher, publisher.store, publisher.node, publisher.signer
    ensures publisher.Sound()
    ensures AllPending(publisher.node.handed, publisher.node.versions, publisher.store.history)
    ensures var handed := publisher.node.handed;
            && (forall i, j :: 0 <= i < j < |handed| ==> NotAfter(handed[i], handed[j]))
            && (forall n :: 0 <= n < |handed| ==> Traced(n, 0, publisher.node.trace))
  {
    for n := 0 to |publications|
      invariant publisher.Sound()
      invariant forall k :: 0 <= k < |publisher.node.handed| ==> Traced(k, 0, publisher.node.trace)
    {
      ghost var before, handed := publisher.node.trace, publisher.node.handed;
      var out, receipt := publisher.Publish(publications[n]);
      forall k | 0 <= k < |publisher.node.handed|
        ensures Traced(k, 0, publisher.node.trace)
      {
        TracedStays(k, if k < |handed| then 0 else |before|, if k < |handed| then before else publisher.node.trace,
                    publisher.node.trace);
      }
    }
    ghost var handed := publisher.node.handed;
    forall i, j | 0 <= i < j < |handed|
      ensures NotAfter(handed[i], handed[j])
    {
      OrderedThroughout(handed, i, j);
    }
  }

  lemma TracedStays(n: nat, start: nat, trace: seq<Event>, longer: seq<Event>)
    requires Traced(n, start, trace) && trace <= longer
    ensures Traced(n, 0, longer)
  {
    var k :| start <= k < |trace| && trace[k] == HandedOver(n);
    assert longer[k] == HandedOver(n);
  }

  function ReceiptOf(s: State): Receipt {
    Receipt(s.lastPublicationID, s.lastDigest, s.ipnsName, s.lastRootText, s.lastSequence)
  }

  function LastIssuedAt(s: State): Time {
    if s.lastRecord.Some? then s.lastRecord.value.issuedAt else ZERO_TIME
  }

  lemma CompletedIsAdmitted(s: State, snapshot: PublicSnapshot)
    ensures CompletedMatches(s, snapshot) ==> RevisionAdmits(s, snapshot)
  {
  }

  lemma ContinuedName(nm: Naming, key: PublicKey, s: State)
    requires OursToContinue(nm, key, s)
    ensures ValidState(nm, s) && (s.ipnsName == [] || s.ipnsName == key.name)
  {
    hide ValidState, Binds;
  }

  lemma PendingRoot(nm: Naming, s: State)
    requires ValidState(nm, s) && s.pending.Some?
    ensures RootCid(nm, s.pending.value.record) == nm.CanonicalRoot(s.pending.value.rootText)
  {
  }

  lemma MatchCarriesOver(nm: Naming, s: State, snapshot: PublicSnapshot)
    requires ValidState(nm, s) && s.pending.Some? && PendingMatches(s.pending.value, snapshot)
    ensures CompletedMatches(Completed(s), snapshot)
  {
    hide RecordFits;
  }
}
