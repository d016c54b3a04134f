# Sovereignite: crash-safe state machines, verified

Sovereignite keeps its durable state in four machines of one shape: a durable intent, then an effect outside, then a
durable completion, each save guarded by a revision. This project models the four and proves what they are for.

- **Key manager** (`KeyTypes`, `KeyProtocol`, `KeySnapshotCheck`, `KeyManager`): keys move from pending to active to
  retiring while a metadata file and a TPM, which cannot be updated together, stay in agreement at every crash point.
- **Trust service and store** (`TrustTypes`, `TrustChecks`, `TrustStore`, `TrustOps`, `TrustSerials`, `TrustValidity`,
  `TrustSystem`, `TrustProgress`, `TrustRefinement`, `TrustWitness`): ownership, certificates, federation, replay
  protection and a public outbox, in one document that several services share; and the pair of
  files (state and revision anchor) that holds it.
- **IPFS publisher** (`Codec`, `IpnsRecord`, `PublicData`, `PublicSnapshots`, `Kubo`, `PublicationStates`, `Publishing`,
  `PublishingWitness`): a signed record is stored as pending, then handed to the network, then recorded as completed.
- **Bootstrap coordinator** (`BootstrapJournal`, `Bootstrap`): a nine-step transaction that resumes from its journal.

`Common` and `Faults` hold what they share.

## How to read it

Outside systems (TPM, file systems, content node, signer, cluster, clock) are objects or parameters whose answers are
arbitrary functions of the number of calls made so far. A call may answer, fail, fail after taking effect, or be the last
thing its process does; a caller's cancelled context shows as the failure of the next such call. A crash ends an operation
where it stands, and a later operation finds what is durable. "Willing", "quiet" and "calm" predicates say that from here
on calls answer; clauses guarded by them state progress, all others hold whatever happens.

Stateful code is classes and methods with loops; what only computes is functions. The trust service, whose point is
interleaving, is a step relation over actions of any number of services (`TrustSystem.Step`), with each operation a
function from the snapshot it read to the one it wants (`TrustOps.Candidate`). `TrustStore` proves that the two files act
as one register, and `TrustRefinement` that a service's commit on them is a commit step of that relation. Ghost histories
record every durable version, and whole-run results are stated on them.

SHA-256 is taken as free of collisions: a certificate stands for its own identifier, a grant for its digest, and a
publication's digest is its preimage under a name. A device is written by its canonical IPNS name, which fixes its peer,
trust domain and workload identity. Times in trust, key manager and bootstrap are natural numbers with 0 for the zero time;
record times are nanoseconds with Go's saturating difference. Counters have their 64-bit bounds.

## Where the code and its comments differ

- The comment at `internal/ipfs/publisher.go:88-90` says that any failure retains the previous completed root. The
  completing commit may be visible although it is reported as failed; `Publishing.Publisher.Publish` states the exact condition, and
  `PublishingWitness.LastCommitDecides` is a run in which it happens.
- `internal/trust/types.go:46-54` declares a revocation kind for uncertain serials; validation accepts no record of that kind
  (lines 521-561), and the public view makes such entries from the burned serials instead. The model follows the code.
- Validity of what the trust operations build has exceptions beyond the collection bounds. `TrustValidity.ValidityPreservation`
  lists them: an owner on whom a live backup administrator depends, a generation at the end of its 64-bit range, a clock
  that went back, a certificate over 64 KiB, a cross-certificate without the right to sign certificates, and a drain
  whose clock reads zero. `TrustWitness` has a valid snapshot and an operation for each; the generation is no exception
  over runs from an empty store.

## Model

| member | source | states |
|---|---|---|
| KeyTypes.ValidatePolicies | internal/keymanager/types.go:134-257 | the loop over policies accepts exactly the non-empty lists of sound policies with one policy per role and no handle in two pools, and then returns the configuration they describe, in their order |
| KeyTypes.ScanHandles | internal/keymanager/types.go:155-181 | scanning one pool accepts it exactly when every handle is persistent, new to the pool and owned by no other role, and then claims exactly its handles |
| KeySnapshotCheck.CheckSnapshot | internal/keymanager/manager.go:388-494 | the nested validation loops accept exactly the valid snapshots: configured roles whose keys fit their policies, generations in line, and no handle recorded twice |
| KeySnapshotCheck.CheckRoleState | internal/keymanager/manager.go:393-437 | the inner loop over one role accepts exactly an active key with older retiring keys, all within policy and at different handles; lifetime roles have one key of generation one |
| KeySnapshotCheck.CheckPending | internal/keymanager/manager.go:438-494 | a pending entry is accepted exactly when it fits its policy, is the next generation of its role and has a handle of its own |
| KeyProtocol.SettledMeansExact | internal/keymanager/manager.go:323-373 | with no pending and no retiring entries, the TPM objects in the policy pools are exactly the active keys: none orphaned, none missing |
| KeyProtocol.CreatedKeepsInv | internal/keymanager/manager.go:670-786 | creating exactly the pending object keeps the agreement |
| KeyProtocol.ActivateKeepsInv | internal/keymanager/manager.go:133-148 | turning a pending entry with a live object into the active key (the old key then retiring) keeps the agreement and at most one unsettled entry over all roles |
| KeyProtocol.DropKeepsInv | internal/keymanager/manager.go:835-840 | dropping a pending entry whose object is gone keeps the agreement |
| KeyProtocol.ClearKeepsInv | internal/keymanager/manager.go:927-941 | clearing retiring entries whose objects are gone keeps the agreement |
| KeyProtocol.ResolveAllRecovers | internal/keymanager/manager.go:818-872 | a recovery pass leaves every role with its pending key if that was created and with the key it had otherwise, and takes no more saves than the space check left room for |
| KeyProtocol.RotationHandleExists | internal/keymanager/manager.go:631-668 | in a settled state the pool of a role that rotates has a handle that is neither active nor occupied |
| KeyProtocol.LifetimeKeyIsForever | internal/keymanager/manager.go:200-212 | over any history of saves, a lifetime role's active key never changes once set |
| KeyProtocol.GenerationNamesOneKey | internal/keymanager/manager.go:200-272 | over any history, role and generation name at most one key that was ever active |
| KeyProtocol.GenerationCountsActivations | internal/keymanager/manager.go:852-858 | a role's generation is the number of its activations: each raises it by exactly one |
| KeyProtocol.RevisionIsIndex | internal/keymanager/manager.go:1015-1025 | the n-th saved snapshot has revision n: no revision is skipped or reused |
| KeyManager.MetadataStore.Save | internal/keymanager/store.go:186-263 | replaces the durable snapshot only by its successor revision, and says when a replacement is visible although its durability is uncertain |
| KeyManager.Manager.PersistSnapshot | internal/keymanager/manager.go:947-962 | the memory copy follows a visible replacement even when the save is reported as uncertain, and is given up after a conflict |
| KeyManager.Manager.ReconcilePending | internal/keymanager/manager.go:818-872 | adopts every pending entry whose object exists and drops the others, in one of the saves there is room for; succeeds when TPM and store answer |
| KeyManager.Manager.ReconcileRetiring | internal/keymanager/manager.go:874-941 | evicts and clears every retiring key in one save, leaving the active keys alone, and succeeds when TPM and store answer |
| KeyManager.Manager.Open | internal/keymanager/manager.go:323-373 | recovery from any state a crash can leave: keeps snapshot and TPM in agreement, ends settled with exactly the recovered active keys, stays within the revisions left for it, and succeeds when TPM and store answer |
| KeyManager.Manager.CreateMetadata | internal/keymanager/manager.go:670-786 | prepare, then persist: on success the pending entry is durable and its object live; on any failure the invariant still holds; succeeds when everything answers |
| KeyManager.Manager.InitialHandle | internal/keymanager/manager.go:606-629 | the first handle of the pool, exactly when it is free |
| KeyManager.Manager.RotationHandle | internal/keymanager/manager.go:631-668 | finds a free handle of the pool exactly when there is one |
| KeyManager.Manager.EnsureRole | internal/keymanager/manager.go:94-149 | returns the role's active key, creating it if needed; the result is durable, settled and verified; succeeds when everything answers and two revisions remain after recovery |
| KeyManager.Manager.Rotate | internal/keymanager/manager.go:190-212 | only roles that rotate are rotated; the returned key is the durable active one, one generation after the key recovery ends with, and nothing is left to settle; succeeds when everything answers and three revisions and a generation remain |
| KeyManager.Manager.RotateLoaded | internal/keymanager/manager.go:213-272 | raises the generation by exactly one, and succeeds when everything answers unless a counter is exhausted: the free handle is always found |
| KeyManager.Manager.ReconcileRetiringOperation | internal/keymanager/manager.go:314-321 | finishes every retirement, and succeeds when everything answers |
| KeyManager.RunThenRecover | internal/keymanager/manager.go:323-373 | crash recovery over whole runs: after any sequence of operations with any faults and crashes, as soon as TPM and store answer an open succeeds, with no pending and no retiring entries and with exactly the active keys in the TPM; every snapshot ever saved was valid |
| KeyManager.Recover | internal/keymanager/manager.go:323-373 | from every state a run can leave, an open whose calls answer succeeds; it keeps each active key or replaces it by the pending one that was created, and uses no more revisions than were left for it |
| KeyManager.Run | internal/keymanager/manager.go:87-321 | any sequence of operations, each with its own faults and crashes, keeps snapshot and TPM in agreement and the saved history good |
| Codec.BigEndianRoundTrip | internal/ipfs/record.go:332-336 | a number that fits its width is read back from its big-endian bytes |
| Codec.Int64RoundTrip | internal/ipfs/record.go:338-340 | a signed 64-bit number is read back from its two's complement bytes, with whatever follows |
| Codec.FieldRoundTrip | internal/ipfs/record.go:327-330 | a length-prefixed field is read back, with whatever follows |
| IpnsRecord.UnsignedPayload | internal/ipfs/record.go:271-308 | the buffer grown field by field is the canonical payload, and exists exactly for records that pass the checks before it |
| IpnsRecord.MarshalBinary | internal/ipfs/record.go:76-87 | the envelope is domain, payload and signature, and exists exactly for encodable signed records |
| IpnsRecord.PayloadRoundTrip | internal/ipfs/record.go:299-307 | every field but the signature is decoded back from the payload, under any domain prefix |
| IpnsRecord.EnvelopeRoundTrip | internal/ipfs/record.go:76-87 | the whole record is decoded back from its envelope |
| IpnsRecord.EncodingsInjective | internal/ipfs/record.go:76-87 | equal payloads mean records equal up to the signature; equal envelopes mean equal records |
| PublicData.SortByPath | internal/trust/public.go:481-484 | the copied documents come out sorted by path and are a permutation of the input |
| PublicData.CheckDocuments | internal/trust/public.go:485-506 | the loop with its running total accepts exactly allowed documents of at most 4 MiB together without a repeated path |
| PublicData.BuildPublication | internal/trust/public.go:466-516 | the building loop computes the publication, or refuses, as the order-free definition says |
| PublicData.NewPublicationIsUnordered | internal/trust/public.go:466-516 | the publication and its identifier do not depend on the order of the documents |
| PublicData.NewPublicationValidates | internal/trust/public.go:518-534 | what is built validates when rebuilt, and its documents are strictly sorted |
| PublicData.IdentifierBindsContent | internal/trust/public.go:410-446 | two valid publications with one identifier have the same name, revision and documents |
| PublicData.PreimageRoundTrip | internal/trust/public.go:536-564 | the hashed bytes decode back to name, revision and documents, for any number of documents |
| PublicData.DocumentsRoundTrip | internal/trust/public.go:547-551 | any list of documents is decoded back from its hashed form |
| PublicData.PublicationDigest | internal/trust/public.go:536-564 | the trust side's loop computes the digest, and from the bytes it hashes the name, the revision and any number of documents can be read back |
| PublicSnapshots.SnapshotDigest | internal/ipfs/snapshot.go:273-301 | the publishing side's own writer and loop compute the trust side's digest, for every input |
| PublicSnapshots.CopyFiles | internal/ipfs/snapshot.go:106-156 | the copying loop accepts exactly importable documents in strictly rising path order of at most 4 MiB together, and copies them unchanged |
| PublicSnapshots.NewPublicSnapshot | internal/ipfs/snapshot.go:70-181 | exactly the admissible publications pass, unchanged; the digest check is implied by the earlier ones |
| PublicSnapshots.BuiltPublicationIsAdmissible | internal/ipfs/snapshot.go:70-181 | whatever the trust side builds for this name, of importable documents, passes |
| Kubo.CheckBlocks | internal/ipfs/kubo.go:147-182 | the loop accepts exactly an inventory that is bounded, without repeats, correctly hashed, free of private keys, and holds the root |
| Kubo.CheckFiles | internal/ipfs/kubo.go:184-220 | the loop accepts exactly plain files that are a permutation of the expected ones |
| Kubo.NoneMissing | internal/ipfs/kubo.go:184-220 | the counting argument: as many as expected, all expected, none twice, means a permutation |
| Kubo.ValidateImportedSnapshot | internal/ipfs/kubo.go:131-221 | an inspection is accepted exactly when root, blocks and files all are right |
| PublicationStates.RefreshIsExact | internal/ipfs/publisher.go:417-423 | a record needs a refresh exactly when expiry, staleness or excess validity fails it |
| PublicationStates.NewRecordPasses | internal/ipfs/record.go:113-171 | a well signed new record passes every check from the second it was made in until it is stale or expires |
| PublicationStates.PreparedIsValid | internal/ipfs/publisher.go:273-286 | once the revision check passes and the publication is not completed, the prepared state satisfies every state check |
| PublicationStates.OrderedThroughout | internal/ipfs/publisher.go:296-367 | over all records handed over: sequence and trust revision never fall, and equal sequences mean the same record |
| Publishing.StateStore.Commit | internal/ipfs/state.go:154-219 | replaces the state only by a valid successor of the expected revision; says exactly when a faulty commit is visible |
| Publishing.Publisher.InspectAndPin | internal/ipfs/publisher.go:213-243 | success means this very call inspected the root with an accepted inventory and confirmed its pin |
| Publishing.Publisher.CreateSignedRecord | internal/ipfs/record.go:113-171 | whatever the signer answers, a returned record is bound to key, root and sequence; succeeds when the signer signs what it is given |
| Publishing.Publisher.PrepareRecord | internal/ipfs/publisher.go:245-294 | on success the record is durably pending under the next sequence; the completed fields never change; succeeds when the store answers the commit and the signer signs what it is given |
| Publishing.Publisher.HandOver | internal/ipfs/publisher.go:337-366 | what is handed over is the pending record of the state that is durable at that moment; the completing commit decides the outcome and the next state; after a failure the completed fields differ exactly when the node took the record and that commit is visible |
| Publishing.Publisher.PublishPrepared | internal/ipfs/publisher.go:296-367 | the pending record is measured again before it is handed over; with a passing record and a willing node the completing commit decides how the call ends |
| Publishing.Publisher.Publish | internal/ipfs/publisher.go:91-211 | a record leaves only behind an accepted inspection and confirmed pin of its root in the same call, and while it is pending in the durable state of that moment; success means this publication is the completed one and its root was inspected and pinned in this call; a failed call changes a completed field exactly when the node took the record and the completing commit is visible; an admissible unfinished publication is handed over and ends as its completing commit does when node, signer and the earlier commits answer and the clock does not run past the record's age; a completed one whose record holds is confirmed when the node answers |
| Publishing.Publisher.Confirm | internal/ipfs/publisher.go:137-164 | a publication completed before succeeds only if its record still holds and this call inspected and pinned its root, and does if the record holds and the node answers; nothing is handed over |
| Publishing.Run | internal/ipfs/publisher.go:91-211 | over any sequence of publications with failures and crashes: sequences and trust revisions handed to the node never fall, equal sequences are identical records, each was pending in the store's state of its moment, and each is on the trace of inspections and pins |
| PublishingWitness.LastCommitDecides | internal/ipfs/publisher.go:337-366 | a concrete first publication in which everything answers but the completing commit: the call ends as that commit did and the completed fields move exactly if it took effect, so a failed call may move them |
| TrustChecks.CheckRelationships | internal/trust/types.go:322-377 | the loop with its set of principals and its counters accepts exactly valid relationships: one live per principal, at most one live owner, no backup administrator without an authorized owner |
| TrustChecks.CheckSerials | internal/trust/types.go:379-571 | claiming serials collection by collection accepts exactly documents in which no two places hold one serial and all are below the next |
| TrustChecks.CheckPublished | internal/trust/types.go:663-695 | the loop accepts exactly distinct sequences whose highest, with its root, is the recorded last one |
| TrustChecks.CheckSnapshot | internal/trust/types.go:190-251 | the whole validation decides validity |
| TrustStore.FileStore.WriteAnchor | internal/trust/store.go:317-353 | an anchor never goes back, never skips and never changes what a revision stands for; refusal means just that |
| TrustStore.FileStore.Read | internal/trust/store.go:152-256 | success means the anchor now stands for exactly the state read; untampered files always read, and an anchor one behind is repaired |
| TrustStore.FileStore.Load | internal/trust/store.go:77-90 | never a revision below one reported before, and at a reported revision never other content, whatever happened to the state file; untampered, it reports the register |
| TrustStore.FileStore.ReplaceBoth | internal/trust/store.go:142-149 | state first, then anchor; a crash in between leaves the files readable as the new value |
| TrustStore.FileStore.Commit | internal/trust/store.go:94-150 | compare-and-swap on the register the two files stand for, at every crash point: it changes only from the expected revision to a valid successor; a conflict means the revision moved on; succeeds or conflicts, as it should, when the files answer |
| TrustStore.Run | internal/trust/store.go:77-256 | over any run of loads, commits, crashes and tampering with the state file, reported revisions never fall and one revision always has one content |
| TrustOps.FindOldestPublished | internal/trust/service.go:844-858 | finds a completed publication of lowest sequence, and nothing only if there is none |
| TrustSerials.SerialMoves | internal/trust/service.go:945-1049 | whatever the operation, a serial that had a holder has a determined one afterwards |
| TrustSerials.CoverageKept | internal/trust/service.go:945-1049 | no operation loses a serial |
| TrustSerials.CandidateFacts | internal/trust/service.go:223-842 | every operation: one revision on, its grant used once, pending entries only gone or reserved, and a new outbox unless it binds, reserves or drains |
| TrustSystem.StepInv | internal/trust/service.go:1087-1125 | every step of every service (open, begin, commit with any fault, sign, crash) keeps the system invariant |
| TrustSystem.RunInv | internal/trust/service.go:100-177 | every reachable system satisfies it |
| TrustSystem.SerialConservation | internal/trust/service.go:945-1049 | in every snapshot of every run, each number from 1 to the next serial has exactly one holder and no other number has one; at most one serial is reserved |
| TrustSystem.SerialsAreSignedOnce | internal/trust/service.go:945-980 | over every interleaving and crash, no two signing calls use one serial |
| TrustSystem.AuthorityStays | internal/trust/service.go:345-426 | over every run, once there is a certificate authority it never changes |
| TrustSerials.YoungKept | internal/trust/service.go:1148-1190 | no operation changes a relationship more often than one authorization and one revocation |
| TrustSystem.GrantsAreConsumedOnce | internal/trust/service.go:900-926 | over every interleaving, no grant changes the store twice |
| TrustSystem.CopiesAreDurable | internal/trust/service.go:1087-1125 | a service's copy at a revision is the store's snapshot at that revision, and so is what every operation started from |
| TrustSystem.CommitsAnnounceThemselves | internal/trust/service.go:1051-1085 | every commit but a binding, a reservation or a drain leaves exactly one item in the outbox: the publication of the documents built from the public view of its own snapshot |
| TrustSystem.OutboxIsFresh | internal/trust/service.go:1051-1085 | at most one item waits; it, or with an empty outbox the item published last, is the publication of what the builder made of the public view of its revision, and that view equals the present one apart from the revision |
| TrustSystem.SnapshotConserves | internal/trust/types.go:379-571 | validity and coverage together mean that exactly the numbers below the next serial are held, once each |
| TrustRefinement.CommitCandidate | internal/trust/service.go:1087-1125 | a service's commit on the two files, for any faults of theirs and with the reload after a failure, is one commit step of the system: the register and the service's copy are what that step says |
| TrustValidity.AdoptValid | internal/trust/service.go:1127-1199 | an adoption gives a valid snapshot exactly when there is room and, for an upgrade, the generation does not wrap and the clock has not gone back |
| TrustValidity.RevokeTrustValid | internal/trust/service.go:276-340 | a revocation gives a valid snapshot exactly when there is room, the generation does not wrap, the clock has not gone back, and it is not the authorized owner's while a backup administrator is live |
| TrustValidity.RevokeCertificateValid | internal/trust/service.go:727-777 | revoking a certificate gives a valid snapshot exactly when there is room |
| TrustValidity.ReserveValid | internal/trust/service.go:945-980 | a reservation gives a valid snapshot exactly when there is room for its grant |
| TrustValidity.BurnValid | internal/trust/service.go:1019-1049 | burning gives a valid snapshot exactly when the burned serials fit |
| TrustValidity.FinalizeCAValid | internal/trust/service.go:345-426 | a checked authority gives a valid snapshot exactly when there is room and its encoding fits |
| TrustValidity.FinalizeLeafValid | internal/trust/service.go:431-537 | a checked certificate gives a valid snapshot exactly when there is room and its encoding fits |
| TrustValidity.FinalizeCrossValid | internal/trust/service.go:542-724 | a checked cross-certificate gives a valid snapshot exactly when there is room, it may sign certificates, its encoding fits and the clock has not gone back |
| TrustValidity.DrainValid | internal/trust/service.go:812-840 | a drain, with pruning when full, gives a valid snapshot exactly when the completion time is set |
| TrustValidity.EmptyStoreIsBound | internal/trust/service.go:126-140 | on the empty store only a binding builds a valid snapshot, and exactly for a canonical identity |
| TrustValidity.ValidityPreservation | internal/trust/types.go:190-251 | every operation on a valid snapshot, the empty one included, builds one the store accepts if and only if the store is bound or bound to a canonical name now, there is room and none of the listed exceptions applies |
| TrustWitness.OwnerWithBackupCannotLeave | internal/trust/types.go:366-375 | a valid snapshot with an owner and a backup administrator: the owner's granted revocation builds a snapshot the store must refuse |
| TrustWitness.LastGenerationCannotBeRevoked | internal/trust/types.go:348-352 | the same for an owner whose generation is at the end of its 64-bit range |
| TrustWitness.ClockBackCannotRevoke | internal/trust/types.go:348-352 | the same for an owner whose beginning is ahead of the clock |
| TrustWitness.LargeCertificateCannotBeStored | internal/trust/types.go:290-294 | a reserved authority whose certificate passes the issuance checks with more than 64 KiB: completing it builds a snapshot the store must refuse |
| TrustWitness.CrossWithoutCertSignCannotBeStored | internal/trust/types.go:710-724 | the same for a cross-certificate without the right to sign certificates |
| TrustWitness.ZeroClockCannotDrain | internal/trust/types.go:668-674 | the same for a drain whose clock reads zero |
| TrustProgress.AcceptableIsCommitted | internal/trust/service.go:1087-1108 | an up-to-date service's operation that the store can accept is committed: the store's next snapshot is what it built, its service holds it, and a reservation leaves exactly the next serial to sign |
| TrustProgress.PermittedIsChecked | internal/trust/service.go:345-724 | in every reachable system a permitted completion has been checked: the reservation and the authority it was made under are unchanged, the certificate is of the reserved kind and issued under that authority, and a federation's edge is the one checked at its reservation |
| TrustProgress.PermittedIsValid | internal/trust/types.go:190-251 | over every run, what a permitted operation builds on its service's copy is valid if and only if the store is bound or bound now, there is room and none of the exceptions applies; the last generation is no exception here, because no relationship changes more than twice |
| TrustProgress.UndisturbedIsCommitted | internal/trust/service.go:1087-1108 | in a reachable system, with the store bound or bound now, room in the collections and no exception, an undisturbed permitted operation is committed |
| TrustProgress.SignedMayComplete | internal/trust/service.go:479-536 | one signing call uses the reserved serial; a good certificate of any kind may then be completed as what it was reserved for, with every check holding against the present authority, or burned |
| TrustProgress.RecoveryOpens | internal/trust/service.go:144-175 | a service that opens on uncertain serials burns exactly them and is then ready, up to date and with nothing pending |
| TrustProgress.EmptyStoreOpens | internal/trust/service.go:117-143 | a service that opens on an empty store binds it to its canonical identity and is then ready and up to date |
| TrustProgress.OpeningIsReady | internal/trust/service.go:100-177 | whatever a run has left, an undisturbed opening ends ready and up to date, on a store bound to the service's identity, with nothing pending and exactly the uncertain serials burned |
| BootstrapJournal.RecordsOnlyGrow | internal/bootstrap/journal.go:338-356 | over any history the records only grow, stay a prefix of the nine-step order, and belong to one transaction of one configuration |
| Bootstrap.JournalStore.Save | internal/bootstrap/journal.go:148-254 | replaces the journal only by a valid successor, and keeps the history of journals good |
| Bootstrap.Coordinator.Advance | internal/bootstrap/cluster.go:431-449 | what it saves is the valid successor or refused, a clock that went back included; it succeeds when store and clock answer and the clock has not gone back; a complete journal is saved only when in this call every component of every record has answered |
| Bootstrap.Coordinator.BeginAttempt | internal/bootstrap/cluster.go:350-377 | afterwards the intent for exactly the next step is durable and the records are unchanged |
| Bootstrap.Coordinator.CommitStep | internal/bootstrap/cluster.go:379-406 | adds exactly this record; the journal is complete exactly after the ninth |
| Bootstrap.Coordinator.SaveFailure | internal/bootstrap/cluster.go:408-429 | records the failure and keeps all records |
| Bootstrap.Coordinator.VerifyRecord | internal/bootstrap/cluster.go:633-786 | success means every component of the step has, in this very pass, answered for its own observation under the step's operation |
| Bootstrap.Coordinator.VerifyCompleted | internal/bootstrap/cluster.go:612-631 | success means every component of every recorded step has answered in this very pass; succeeds when everything answers and the evidence is the configured one |
| Bootstrap.Coordinator.ExecuteStep | internal/bootstrap/cluster.go:451-610 | acts only under the durable intent, once on each component in order; the last step first has every component of every record answer once more |
| Bootstrap.Coordinator.Act | internal/bootstrap/cluster.go:451-610 | one action on one component: the durable journal of its moment carries the intent, every component of every record in it has answered since the call began, and the key is the step's own |
| Bootstrap.Coordinator.RunStep | internal/bootstrap/cluster.go:197-265 | one round adds one record, verified in this call, or fails with everything recorded kept; it succeeds when everything answers |
| Bootstrap.Coordinator.StartBootstrap | internal/bootstrap/cluster.go:134-267 | success means a durable complete journal for all of whose records every component has answered in this call; its actions and saves rest on answers of this call only; a journal of another configuration is refused with nothing done; it succeeds when everything answers, the clock does not go back and the evidence is the configured one |
| Bootstrap.Coordinator.GetStatus | internal/bootstrap/cluster.go:271-315 | reports the state of the durable journal, and always does when the store answers and the configuration is the journal's: complete only with nine records verified by the call that saved it, the failed step of a recorded failure, the next step otherwise |
| Bootstrap.AttemptsShareTheirKey | internal/bootstrap/cluster.go:885-896 | all attempts of one step, in all calls, use one idempotency key |
| Bootstrap.Run | internal/bootstrap/cluster.go:134-267 | over any sequence of coordinators with their own configurations and clocks, with failures and crashes: every action started under an intent in the durable journal of its moment and after every component of every record there had answered, keys are shared, every saved journal is valid and of one configuration, records only grow, and what says complete was saved when all components of all its records had answered |

## Left out

- TrustValidity.DrainValid: of several waiting items of one revision the code takes the one with the lowest identifier; the model takes any, and shows that there is never more than one.
- TrustOps.Candidate: the service's operations are modelled on values, as functions of the snapshot they read; updates in place of a cloned snapshot, and aliasing between copies, are not captured.
- TrustSystem.StepInv: the bound of eight attempts, the mutexes inside one service and the order of its goroutines are not modelled; every interleaving of attempts is allowed.
- Joint progress of the trust outbox and the publisher: the outbox drops superseded items while the publisher refuses anything but its pending one, so only safety is claimed for the pair.
- Progress of `InitializeLocalCA` under the default policies, which give the root CA role a purpose that issuance refuses; the issuer is a parameter.
- Files below atomic replacement: permissions, owners, symbolic links, locks, temporary names, directory syncs, JSON and its size limits. A replacement is visible or not, and may be reported as failed either way; loss of a visible replacement is not modelled.
- Deleting or changing the trust anchor file: only the state file is open to tampering in the model.
- X.509, TPM commands, CID, multibase and signature internals: certificates are parsed records, and names, content identifiers, public keys and signatures are judged by parameters.
- Encodings that do not parse, and words outside the declared enumerations in stored documents: the types have no such values. A policy grant may leave its values empty.
- A TPM backend that breaks its own contract by persisting without calling prepare, or by calling it twice.
- Content rules of public documents (path allowlists, JSON inspection, private key search) and the building of documents from the public view: parameters that accept or refuse a document, or answer a view with documents.
- Two bootstrap coordinators in different processes at once, and the test hooks of the coordinator.
- Authorization by the injected policy, mutual TLS verification and SPIFFE parsing: what they answer is an input; that a verified peer's name is canonical is checked where a peer is adopted.
- Certificate cloning and profile policy, the rotation poll loop, identity records, hotspot, discovery, mDNS, BLE, endpoint records, readiness, hostname, gRPC servers, command mains, Kubernetes controllers, PKCS#11 and kpt provenance: plumbing, or single checks that would only add easy members.
