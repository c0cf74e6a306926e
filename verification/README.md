# Cloud offload in Dafny

A model of the parts of the cloud offload service that keep state, recurse or compensate,
with proofs of what they are for.  `dafny verify dfyconfig.toml` checks the whole of it.

| files | what they model |
|---|---|
| `LeaseProtocol`, `LeaseQueue`, `LeaseRelations`, `LeaseRuns`, `Dispatcher`, `Connectors` | renting machines under durable leases: a transition system of three parties, the lease table, the dispatcher as an object whose every method takes only steps of that system, and what the connectors may answer it |
| `CacheIndex`, `CacheRegistry`, `CacheCoverage`, `ReplicaLedger` | one volume of the cache registry, the coverage it can offer, and the reservations of replicas |
| `PlanGraph`, `PlanValidation`, `PlanAuthority`, `PlanLaws`, `PlanStore` | the validator of typed plans, the life of a plan's authority, and what each of its operations does to the rows |
| `PartitionCodec`, `PartitionBundle`, `PartitionLaws`, `WorkflowShape` | the value codec with its side tables, the bundle around it, what is sent and loaded place by place, and the memoised hash of a workflow |
| `CorruptionCanary`, `ResourceCleanup`, `ArtifactBootstrap` | putting stores back after any failure, bounded cleanup with proof of absence, all-or-nothing bootstrap |
| `ShadowAdmission`, `JobProgress`, `CandidateRanking` | admission under a budget, when progress never falls, and the choice of an offer |
| `Prelude`, `Flows` | results, options, and calls that may raise |

Objects that the source updates in place are classes whose methods are proved against functions
or step relations on values; the laws are lemmas about those.  Failures are part of the model:
every call of the dispatcher to a provider, every call of the canary and every request of the
cleanup may raise, with or without having taken effect; a transaction of the queue may raise
without effect; and what the coordinator, the providers and other users do in between is
arbitrary.  A provider may answer anything: a listing may miss any machine, and an inspection may
show one in a state it is not in.  What becomes of each call of the dispatcher, of the canary, of
the cleanup and of the bootstrap is an input, so that their contracts say exactly what comes of it;
the dispatcher also keeps a record of the steps it took and the answers it was given.  A crash is an interruption
after any step.

## Where the code and its promises part

Each of these is a lemma or a contract with a condition that is exact, or a concrete run, or both.

- A lease is closed on the word of its provider, so a live machine that a listing misses, that an
  inspection shows dead, or that is rented only after its name was missed, is orphaned; runs are
  safe exactly as long as none of these happens: `NoPaidOrphan`, `NoPaidOrphanExactly`,
  `MissedMachineIsOrphaned`, `DeniedMachineIsOrphaned`, `LateLaunchIsOrphaned`.
  Both bundled connectors let some happen (`provider_order` in `cloud_offload/config.py`, line 395, names them
  by default).  RunPod leaves stopped machines and those in an unknown state out of its listings
  (`cloud_offload/providers/runpod.py`, lines 470-478 and 620-631).  The specification of Vast.ai
  returns a failed inspection as absence and a failed listing as an empty one, and its listings
  lack the names of machines (`cloud_offload/providers/specs/vast.json`, lines 148-230), so that a
  bound lease can be closed over a running machine, and a launch that raises after renting always
  ends in a closed lease.  `SafeExactlyWhenReliable` says which connectors are safe:
  `RunPodOverlooksOnlyHidden`, `SwallowedInspectionOrphans`, `MissingNameOrphans`.
- `_reconcile_leases` says that it closes every revoked resource.  A lease that is revoked while
  its launch is under way is never bound any more, and `_terminate_lease` returns at once for an
  unbound lease: `RevokedUnboundIsNeverTerminated`, `CancelledLaunchIsReachable`.
- `remove_manifest` skips artifacts with a null, empty or other falsy digest, which
  `reconcile_index` stores under its text: `RemoveKeepsIndexExactly`, `StrandedRow`.
- Validation raises a type error, not a plan error, when an input reads a later stage whose
  outputs are null: `TypeErrorExactly`, `NullOutputsRaise`.
- `abort_submit` clears the private row of a submission that has already moved on:
  `VaultAgreesExactly`, `LateAbortIsReachable`.  The queue's own transactions can rewrite the
  receipt of a plan that was closed before its job, and step a plan back on a retry:
  `TerminalForGoodExactly`, `CompletionRewriteIsReachable`, `FailureRewriteIsReachable`,
  `RetryStepBackIsReachable`.
- The shape of a workflow with a cycle of several nodes can depend on their order:
  `CyclicShapeDependsOnOrder`.  Without such a cycle it does not: `ShapeIgnoresNamesAndOrder`.
- When removing the temporary file fails after a first receipt was written, the bootstrap removes
  the artifacts but not the receipt: `ImportDeclaredArtifacts`, `ReceiptWithoutFiles`.
- Cleanup takes an object that cannot be read for a missing one, so it can return without having
  restored the stores; it can still be run again: `CleanupCorruption`, `OverlookedAnnouncement`.
- A preparation that fails takes back what it published, but not in every case: a write that took
  effect although it raised, a deletion that is lost, or a cleanup that fails or overlooks something
  leaves objects behind, which a later cleanup can still take away: `PrepareCorruption`.
- Progress can fall before the first event of a stage, or after an event without a time:
  `NeverFallsExactly`, `GuessedStageCanFall`, `UntimedStageCanFall`.
- Scores are rounded before they are compared.  The cheapest and the fastest choice are not
  affected: `CheapestAndFastestAreBest`.  The balanced choice can be worse than another offer on
  one estimate and no better on the other, once an unpriced offer stretches the range of costs:
  `BalancedIsBestExactly`, `NarrowRangesTellApart`, `UnpricedOfferHidesTheCheaper`.

## Model

| member | source | states |
|---|---|---|
| `LeaseProtocol.NoPaidOrphan` | cloud_offload/dispatcher.py:765-847 | over every run from a sound world, whatever the provider answers and does and with a crash or an uncertain call anywhere: as long as no listing missed a live machine of an unbound lease, no inspection showed a live machine dead, and no launch took effect after its name was missed or its lease closed, every live machine that was launched for a lease belongs to an open lease, bound to it or unbound with its name |
| `LeaseProtocol.NoPaidOrphanExactly` | cloud_offload/dispatcher.py:1066-1091 | a run is free of paid orphans, and no step of the dispatcher, the queue or the environment would make one next, all along if and only if the provider did none of these three things on it |
| `LeaseProtocol.StepKeepsUnseenExactly` | cloud_offload/dispatcher.py:1074-1090 | after any step a name that was missed still means that the machine is gone, unless the step is a listing that misses a live machine of an unbound lease, or a launch that takes effect after the miss |
| `LeaseProtocol.StepKeepsReportedExactly` | cloud_offload/dispatcher.py:1178-1194 | after any step a machine that was shown dead is dead, unless the step is an inspection that shows a live machine dead |
| `LeaseProtocol.StepKeepsTruthExactly` | cloud_offload/dispatcher.py:1066-1194 | no machine is orphaned and what was answered stays true, exactly unless the step is one of the three |
| `LeaseProtocol.SecureExactly` | cloud_offload/dispatcher.py:1084-1194 | apart from a late launch, no step that can follow orphans a machine exactly when every machine shown dead is dead and every unbound lease whose name was missed has none alive |
| `LeaseProtocol.StepOrphansExactlyByClosingOver` | cloud_offload/dispatcher.py:1196-1260 | a single step makes a paid orphan exactly when it closes a lease over its live machine, unbound after a miss or bound after an inspection, or is a launch for a lease that is closed; every other step of any party is safe |
| `LeaseProtocol.ClosedOnEvidence` | cloud_offload/dispatcher.py:1179-1194 | in every run, a lease that came to be closed was closed on the word of its provider: an answer that showed its machine dead, or a listing without its name |
| `LeaseProtocol.EvidenceWasGiven` | cloud_offload/dispatcher.py:1066-1194 | that answer or that listing is a step of the run |
| `LeaseProtocol.MissedMachineIsOrphaned` | cloud_offload/dispatcher.py:1076-1090 | rented, missed by a listing, closed: a four-step run to a paid orphan, whatever state the machine is in |
| `LeaseProtocol.DeniedMachineIsOrphaned` | cloud_offload/dispatcher.py:1178-1187 | rented and bound, shown absent while it runs, closed: a five-step run to a paid orphan |
| `LeaseProtocol.LateLaunchIsOrphaned` | cloud_offload/dispatcher.py:776-847 | missed, closed, and rented only then: a run to a paid orphan in which every answer was true when it was given |
| `Connectors.SafeExactlyWhenReliable` | cloud_offload/providers/declarative.py:920-976 | every run that a set of connectors can answer is free of paid orphans if and only if each of them reports failures as failures, keeps the names of machines, lists every live state, and rents before its call has ended |
| `Connectors.ReliableRunIsHonest` | cloud_offload/providers/declarative.py:920-976 | such connectors never mislead, on any run |
| `Connectors.RunPodOverlooksOnlyHidden` | cloud_offload/providers/runpod.py:470-478 | RunPod, if it rents before its call has ended, denies no live machine, and misses only those that are stopped or in an unknown state |
| `Connectors.SwallowedInspectionOrphans` | cloud_offload/providers/specs/vast.json:148-150 | with a connector that returns a failed inspection as absence, a failing request for a running machine of a bound lease ends in a paid orphan |
| `Connectors.MissingNameOrphans` | cloud_offload/providers/specs/vast.json:192-230 | with one whose listings fail as empty, lack names or leave out a live state, a launch that raises after renting ends in a paid orphan |
| `Connectors.LateLaunchOrphans` | cloud_offload/dispatcher.py:776-847 | with one that may rent after its call has ended, so does a launch whose name was missed before |
| `Connectors.BundledAreUnreliable` | cloud_offload/providers/specs/vast.json:118-230 | neither of the two bundled connectors is reliable |
| `LeaseProtocol.ClosedForGood` | cloud_offload/queue.py:1249-1340 | a closed lease is never opened again by any later step |
| `LeaseProtocol.StepKeepsSingleFlight` | cloud_offload/dispatcher.py:301-330 | no step makes a second open lease for a provider and profile |
| `LeaseProtocol.StepKeepsCoherence` | cloud_offload/dispatcher.py:984-1012 | the six tables of the dispatcher keep equal key sets, and every entry names its own lease, provider, profile and launch time |
| `LeaseProtocol.StepIsLater` | cloud_offload/queue.py:1066-1340 | no step undoes a binding, a revocation, a closure or the death of a machine |
| `LeaseProtocol.RunKeepsCore` | cloud_offload/dispatcher.py:1196-1260 | names, bindings, single flight and coherent tables hold after every run |
| `LeaseProtocol.PrefixIsLegal` | cloud_offload/dispatcher.py:765-847 | every beginning of a run is a run, so a crash may fall after any step |
| `LeaseProtocol.RevokedUnboundIsNeverTerminated` | cloud_offload/dispatcher.py:1161-1163 | a lease revoked before it was bound is never bound, and however the run goes on the dispatcher never asks for its machine to be terminated |
| `LeaseProtocol.CancelledLaunchIsReachable` | cloud_offload/queue.py:1162-1204 | such a lease with a live machine is reached by cancelling a job while its launch is under way |
| `LeaseProtocol.RentalIsReachable` | cloud_offload/dispatcher.py:984-1029 | an ordinary rental is a run: its lease ends up bound to the machine, which is known, and launched at the time of its lease |
| `LeaseQueue.JobQueue.CreateLease` | cloud_offload/queue.py:880-985 | a fresh provisioning row, or a refusal of a known identifier and an unchanged table |
| `LeaseQueue.JobQueue.BindLease` | cloud_offload/queue.py:1066-1120 | refuses exactly an unknown lease, a lease bound elsewhere, or a machine bound to another lease of the provider; otherwise binds a provisioning or active lease and leaves any other unchanged |
| `LeaseQueue.JobQueue.RequestLeaseRevocation` | cloud_offload/queue.py:1162-1200 | revokes a provisioning or active lease, and leaves any other unchanged |
| `LeaseQueue.JobQueue.RecordTerminationAttempt` | cloud_offload/queue.py:1206-1247 | an open lease becomes terminating with a request on record |
| `LeaseQueue.JobQueue.ConfirmLeaseTermination` | cloud_offload/queue.py:1249-1298 | a known lease becomes closed and confirmed, whatever it was |
| `LeaseQueue.JobQueue.CloseUnboundLease` | cloud_offload/queue.py:1300-1340 | closes a lease that is not bound, and refuses a bound one |
| `Dispatching.Dispatcher.constructor` | cloud_offload/dispatcher.py:101-168 | a start after any interrupted run is one more step of the same run, with empty tables |
| `Dispatching.Dispatcher.CreateLease` | cloud_offload/dispatcher.py:765-774 | a fresh lease that nothing was launched for, for a key without an open lease |
| `Dispatching.Dispatcher.Launch` | cloud_offload/dispatcher.py:776-800 | raises exactly when the call does, and the machine may be rented all the same; only this lease is concerned |
| `Dispatching.Dispatcher.BindLease` | cloud_offload/dispatcher.py:997-1002 | the binding of a machine found or launched for a lease is never refused by the table |
| `Dispatching.Dispatcher.RememberLaunchedInstance` | cloud_offload/dispatcher.py:984-1029 | binds first and then tracks, with the activity now and the launch at the creation of the lease; a lease that was not revoked ends up bound to the machine; raises exactly when a call does |
| `Dispatching.Dispatcher.RecoverProvisioningLease` | cloud_offload/dispatcher.py:1066-1091 | answers that nothing was rented exactly when it closed the lease, and that it could not ask only for an unknown provider or after a listing that raised; a machine it finds carries the name of the lease, with the state that the listing showed |
| `Dispatching.Dispatcher.ForgetInstance` | cloud_offload/dispatcher.py:1093-1101 | removes the machine from every table, and only where its lease is closed |
| `Dispatching.Dispatcher.RestoreLeaseInstance` | cloud_offload/dispatcher.py:1103-1113 | enters the machine under its lease in every table, keeping the activity and launch times already known |
| `Dispatching.Dispatcher.TerminateLease` | cloud_offload/dispatcher.py:1161-1194 | does nothing for an unbound lease; otherwise asks for the termination of its machine and no other, and leaves the lease closed, or terminating because the provider could not be asked or showed the machine alive; forgets the machine only when it was shown dead and the lease closed |
| `Dispatching.Dispatcher.ReconcileLease` | cloud_offload/dispatcher.py:1199-1260 | deals with one open lease without touching the entries or leases of others; if the lease stays open, its machine is in the tables, if its deadline has passed, or it was revoked while bound, it is being ended, unless nobody knows its provider or a call asking about the lease raised; raises only when a call does |
| `Dispatching.Dispatcher.Resolve` | cloud_offload/dispatcher.py:1222-1260 | closes the lease of a machine shown dead, ends one that was revoked or whose deadline has passed, and takes any other up again |
| `Dispatching.Dispatcher.ReconcileLeases` | cloud_offload/dispatcher.py:1196-1260 | after a complete pass, every open lease has its machine in the tables, every bound lease that was revoked is terminating or closed, and every lease whose deadline has passed is at least revoked, and is being ended if it is bound, except those whose provider nobody knows or about which a call of the pass raised; raises only when a call does |
| `Dispatching.Dispatcher.UpdateWorker` | cloud_offload/dispatcher.py:1859-1887 | acts on the status that the provider answered for this machine just now, whatever the machine is doing; raises only when a call does |
| `Dispatching.Dispatcher.LaunchOn` | cloud_offload/dispatcher.py:776-847 | after a launch that raised, reports that there is no resource exactly when the lease was closed; a launched machine is in the tables under its lease |
| `Dispatching.Dispatcher.LaunchWorker` | cloud_offload/dispatcher.py:396-967 | launch, recovery and cold fallback take only protocol steps; with an offer on a known provider a free key gets a lease, and a machine is rented for it unless a call fails; all new leases are of that key, and at most one is open at any time |
| `Dispatching.Dispatcher.LaunchWanted` | cloud_offload/dispatcher.py:262-330 | for every wish with an offer someone works on its key already, or a lease is created for it; every new lease has a machine rented for it, or a call failed |
| `Dispatching.Dispatcher.UpdateWorkers` | cloud_offload/dispatcher.py:1857-1887 | the statuses acted on are those that the provider answered during the pass; every machine shown dead is forgotten and its lease closed, the lease of every one shown stopped is revoked, and the status of any other is noted; every machine still known after a complete pass was shown alive |
| `Dispatching.Dispatcher.CheckUnregisteredWorkers` | cloud_offload/dispatcher.py:1889-2024 | ends the leases of exactly the overdue machines: unregistered, and over ten minutes without a container or over an hour in all |
| `Dispatching.Dispatcher.CheckIdleWorkers` | cloud_offload/dispatcher.py:2039-2094 | ends the leases of exactly the idle machines; the clock of a busy machine starts again and that of any other goes on; nothing happens when workers are kept warm |
| `Dispatching.Dispatcher.TerminateWorker` | cloud_offload/dispatcher.py:2096-2109 | a known machine always has a lease, which is revoked before its machine is terminated |
| `Dispatching.Dispatcher.Tick` | cloud_offload/dispatcher.py:221-339 | a whole iteration, interrupted anywhere, takes only protocol steps, creates leases for wanted keys only and raises only when a call does; after a complete one every lease that was open at the start and still is has its machine in the tables, every bound lease that was revoked is terminating or closed and every one past its deadline is being ended, except for an unknown provider or a call about that lease that raised; every wish with an offer whose key had no machine, worker or open lease has a lease created for it and a machine rented for every new lease, unless a call failed; and every known machine was shown alive, and is being ended if it was shown stopped, is overdue or idle |
| `LeaseRuns.KnownWhileOpen` | cloud_offload/dispatcher.py:984-1012 | on any run without a crash, a machine in the tables stays there while its lease is open |
| `LeaseRuns.TakenUpStays` | cloud_offload/dispatcher.py:1196-1260 | what a pass over the leases has achieved lasts through whatever follows in the same process |
| `LeaseRuns.CreatedSince` | cloud_offload/dispatcher.py:396-967 | on any run a new lease was created on it, for its own key |
| `LeaseRuns.ServedOrStarted` | cloud_offload/dispatcher.py:262-330 | on any run a key with a machine, a worker or an open lease had one before, or a lease was created for it since |
| `LeaseRuns.RentedSince` | cloud_offload/dispatcher.py:776-847 | on any run without a late launch a new machine of a lease was rented for it |
| `Dispatching.Dispatcher.InterruptedAnywhere` | cloud_offload/dispatcher.py:221-339 | at every point of what a dispatcher did, a crash leaves no paid orphan behind, if no answer so far missed or denied a live machine |
| `CacheIndex.ReconcileKeepsIndex` | cloud_offload/cache_registry.py:332-441 | reconciling keeps the table the exact index of the stored manifests, if one identifier names the same artifacts |
| `CacheIndex.ReconcileGuardsAndAgrees` | cloud_offload/cache_registry.py:383-440 | the status computed on the spot equals that of the general refresh, and every row is eligible, invalidated or unknown as it should be, whatever the table was before |
| `CacheIndex.LastEntryIsStored` | cloud_offload/cache_registry.py:332-441 | of several entries for a manifest the last is stored, with the artifacts of its document |
| `CacheIndex.UnlistedManifestStays` | cloud_offload/cache_registry.py:332-441 | a manifest that the index does not list stays as it is |
| `CacheIndex.LastListingIsIndexed` | cloud_offload/cache_registry.py:332-441 | the row of a digest is that of the last artifact with it in the last entry that lists it, invalidated if the digest is |
| `CacheIndex.UnseenRowIsUnknown` | cloud_offload/cache_registry.py:332-441 | a row that no entry lists stays, as unknown |
| `CacheIndex.AnnouncementSeesEveryRow` | cloud_offload/cache_registry.py:443-470 | under an exact table the merged index of an announcement sees every row |
| `CacheIndex.RepointedLaw` | cloud_offload/cache_registry.py:528-548 | a row that survives a removal names the newest manifest that names its digest, and the first such artifact in it |
| `CacheIndex.RemovedLaw` | cloud_offload/cache_registry.py:472-582 | of the digests that a removed manifest names, those that no other names lose their rows and invalidations, the others point to the newest manifest that names them; nothing else changes |
| `CacheIndex.RemoveKeepsIndexExactly` | cloud_offload/cache_registry.py:472-582 | removing a manifest keeps the table exact if and only if no row of a falsy digest names it, and no digest of it is listed by the other manifests as a falsy one only |
| `CacheIndex.StrandedRow` | cloud_offload/cache_registry.py:523-527 | a manifest with a null, empty or other falsy digest leaves a row without its manifest |
| `CacheIndex.OpKeepsIndex` | cloud_offload/cache_registry.py:332-582 | every write keeps the table exact under these conditions |
| `CacheIndex.OpKeepsGuardAndHealth` | cloud_offload/cache_registry.py:780-834 | every write keeps invalidated digests from being eligible, and the health flag in step, without any condition |
| `CacheIndex.InvalidationIsLiftedOnlyByProof` | cloud_offload/cache_registry.py:819-834 | an invalidation is lifted only by a full verification of the digest or by removing the last manifest that names it |
| `CacheIndex.TableIsTheIndexOverRuns` | cloud_offload/cache_registry.py:332-582 | over every run the table is the exact index of the stored manifests |
| `CacheIndex.HealthOverRuns` | cloud_offload/cache_registry.py:801-817 | over every run the volume is ready exactly when nothing is invalidated and every row is eligible |
| `CacheIndex.InvalidationNeedsProofOverRuns` | cloud_offload/cache_registry.py:905-950 | an invalidation that is gone at the end of a run was lifted by such a write during it |
| `CacheIndex.InvalidationStands` | cloud_offload/cache_registry.py:780-799 | after an invalidation, whatever else is written, the digest is invalidated, the volume degraded and its row not eligible, until a write that lifts it |
| `CacheIndex.VerifiesNow` | cloud_offload/cache_registry.py:819-834 | a verification lifts exactly this invalidation, and makes the volume ready exactly when nothing else stands against it |
| `CacheRegistry.CacheRegistry.ReconcileIndex` | cloud_offload/cache_registry.py:332-441 | the loops compute the write above, refuse an unsupported schema or a missing generation, and count the artifacts and the drifted rows |
| `CacheRegistry.CacheRegistry.AnnounceManifest` | cloud_offload/cache_registry.py:443-470 | reports zero drift whenever the table was exact |
| `CacheRegistry.CacheRegistry.LatestByDigest` | cloud_offload/cache_registry.py:508-520 | visiting manifests from the newest finds, for every digest named, its newest manifest and first artifact |
| `CacheRegistry.CacheRegistry.RemoveManifest` | cloud_offload/cache_registry.py:472-582 | the loop over the removed digests computes the removal above, and counts the restored and removed rows |
| `CacheRegistry.CacheRegistry.RefreshVolumeHealth` | cloud_offload/cache_registry.py:801-817 | degraded exactly when something is invalidated or a row is not eligible |
| `CacheRegistry.CacheRegistry.InvalidateDigest` | cloud_offload/cache_registry.py:780-799 | afterwards the digest is invalidated and so is its row, if any; the volume is degraded; every other row, the manifests and the generation stay |
| `CacheRegistry.CacheRegistry.MarkVerified` | cloud_offload/cache_registry.py:819-834 | afterwards the digest is not invalidated and its row, if any, is eligible; the volume is ready exactly when nothing is invalidated and every row is eligible; everything else stays |
| `CacheRegistry.CacheRegistry.RecordObservation` | cloud_offload/cache_registry.py:836-951 | corruption invalidates as above, a hit with full digest verification verifies as above, and no other observation changes anything |
| `CacheCoverage.VolumeCoverage` | cloud_offload/cache_registry.py:629-778 | complete exactly when a manifest of the profile is stored, every required digest is carried by a usable candidate and every logical requirement is met; each digest is listed as often as it is hit, by the artifacts of the manifest as they stand and once by the table; the cached bytes are those of the distinct digests hit, and at least the required bytes if it is complete |
| `CacheCoverage.Accumulate` | cloud_offload/cache_registry.py:719-763 | no digest is counted twice, and each at its required size or the size of a candidate |
| `CacheCoverage.HitListCounts` | cloud_offload/cache_registry.py:719-763 | a digest is listed once for every usable candidate that carries it and meets a requirement |
| `CacheCoverage.Gather` | cloud_offload/cache_registry.py:661-718 | the candidates are the artifacts of the selected manifest, in their order, and then once each those rows of the table that may serve |
| `CacheCoverage.Select` | cloud_offload/cache_registry.py:650-661 | the newest manifest of the profile, if there is one |
| `CacheCoverage.TotalOfPart` | cloud_offload/cache_registry.py:759-775 | leaving out entries that are not negative lowers the total |
| `CacheCoverage.ReadyCandidatesAreSound` | cloud_offload/cache_registry.py:664-691 | on a ready volume every candidate is eligible both by its manifest and by the table |
| `CacheCoverage.CandidateIsEligible` | cloud_offload/cache_registry.py:664-691 | a candidate may serve only if its digest is not invalidated, and otherwise the digest is, or its row is not eligible |
| `ReplicaLedger.LimitsOverRuns` | cloud_offload/cache_registry.py:1092-1286 | over every run with fixed limits and a clock that does not run back, no recommendation has two active actions, copies in flight stay within the limit, and unexpired reservations within the budget at every later time |
| `ReplicaLedger.OpKeepsLimits` | cloud_offload/cache_registry.py:1092-1286 | every operation, at the same time or a later one, keeps all limits |
| `ReplicaLedger.WindingKeepsLimits` | cloud_offload/cache_registry.py:1192-1286 | completing, failing, expiring, recovering or losing actions, and time passing, keep single flight, the in-flight limit and the budget |
| `ReplicaLedger.ClaimKeepsLimits` | cloud_offload/cache_registry.py:1132-1190 | a claim that passes the three checks keeps all limits |
| `ReplicaLedger.ReservesNoMore` | cloud_offload/cache_registry.py:1149-1158 | fewer reserved actions, or a later time, never reserve more |
| `ReplicaLedger.ReplicaActions.ClaimReplicaAction` | cloud_offload/cache_registry.py:1092-1190 | when a claim is malformed, a duplicate, over a limit or accepted, with the whole new table: one new row, or the old table |
| `ReplicaLedger.ReplicaActions.SumReserved` | cloud_offload/cache_registry.py:1149-1156 | the sum over the unexpired active rows |
| `ReplicaLedger.ReplicaActions.CompleteReplicaAction` | cloud_offload/cache_registry.py:1192-1209 | completes exactly a copying action, and changes no other row and no other field |
| `ReplicaLedger.ReplicaActions.FailReplicaAction` | cloud_offload/cache_registry.py:1211-1222 | fails exactly a copying action, likewise |
| `ReplicaLedger.ReplicaActions.ExpireReplicaAction` | cloud_offload/cache_registry.py:1245-1260 | expires exactly a completed action, likewise |
| `ReplicaLedger.ReplicaActions.RecoverStaleReplicaActions` | cloud_offload/cache_registry.py:1262-1272 | fails exactly the copying actions that are too old, and counts them |
| `ReplicaLedger.ReplicaActions.LoseReplicaActionsForTarget` | cloud_offload/cache_registry.py:1274-1286 | ends exactly the active actions of a lost target, and counts them |
| `ReplicaLedger.CompletingKeepsClaim` | cloud_offload/cache_registry.py:1130-1209 | a completed copy goes on holding its claim and its share of the budget, but none of the copies in flight |
| `ReplicaLedger.EndingReleasesClaim` | cloud_offload/cache_registry.py:1130-1286 | an action that failed, expired or was lost no longer holds its claim |
| `ReplicaLedger.EndingReleasesCost` | cloud_offload/cache_registry.py:1149-1260 | ending an active action releases exactly its cost, if it had not run out |
| `ReplicaLedger.OnlyEndingReleases` | cloud_offload/cache_registry.py:1092-1286 | no other operation releases a claim |
| `ReplicaLedger.ClaimStandsOverRuns` | cloud_offload/cache_registry.py:1092-1286 | over any run a claim stands until an operation that ends its action |
| `PlanGraph.WalkAcceptsIffAcyclic` | cloud_offload/plan_protocol.py:335-350 | the depth-first walk accepts a dependency graph if and only if it has no cycle, and then finishes the stages in a topological order |
| `PlanGraph.VisitFinds` | cloud_offload/plan_protocol.py:338-348 | a refused walk exhibits a cycle, an accepted one keeps dependencies first |
| `PlanGraph.PathGoesDown` | cloud_offload/plan_protocol.py:335-350 | in an order with dependencies first, every path leads to an earlier place |
| `PlanGraph.DepthFirst.Visit` | cloud_offload/plan_protocol.py:338-348 | the visiting and visited sets compute that walk, and it terminates |
| `PlanValidation.ValidateCloudPlan` | cloud_offload/plan_protocol.py:176-374 | accepts exactly the plans that meet the limits and whose stages can be run in some order; ends in a type error exactly when a binding that is reached, every earlier check having passed, reads an output of a dependency whose outputs are null |
| `PlanValidation.ValidateContracts` | cloud_offload/plan_protocol.py:129-145 | accepts exactly lists of valid contracts with distinct names, and tabulates them by name |
| `PlanValidation.WellFormedIsExecutable` | cloud_offload/plan_protocol.py:273-333 | an accepted plan has an order that runs every stage once, after its dependencies, with every input from a declared artifact or from an output that an earlier dependency declares, with the role and media type stated on the binding, and ends with every final output |
| `PlanValidation.ExecutableIsWellFormed` | cloud_offload/plan_protocol.py:176-374 | and a plan that meets the limits and has such an order is accepted |
| `PlanValidation.WellFormedExactly` | cloud_offload/plan_protocol.py:176-374 | so what the validator checks, stage by stage and by its walk, is that such an order exists |
| `PlanGraph.VisitFinishesOnce` | cloud_offload/plan_protocol.py:338-348 | the walk finishes no stage twice, nor while it is being visited |
| `PlanValidation.RefusalIsRight` | cloud_offload/plan_protocol.py:286-333 | in a well-formed plan no binding is refused, even when its producer comes later in the list |
| `PlanValidation.AcceptanceShows` | cloud_offload/plan_protocol.py:286-333 | an accepted binding is supplied with what it states |
| `PlanValidation.RaisesExactlyOnNullOutputs` | cloud_offload/plan_protocol.py:309-316 | reading an output of a stage raises a type error exactly when that stage, not validated yet, has outputs that cannot be looped over |
| `PlanValidation.ReachedRaisesOnNull` | cloud_offload/plan_protocol.py:286-333 | a binding that is reached raises a type error exactly when it reads a null output, whatever was tabulated before |
| `PlanValidation.TypeErrorExactly` | cloud_offload/plan_protocol.py:176-333 | the first refused check is a type error exactly on the plans in which some binding is reached and reads a null output |
| `PlanValidation.NullOutputsRaise` | cloud_offload/plan_protocol.py:309-316 | such a plan, with an input artifact, two stages and a final output: all checks before the binding pass |
| `PlanAuthority.ReachableIsSound` | cloud_offload/plan_protocol.py:1412-1678 | in every store reachable by the operations of the plan store and the transactions of the queue a plan is quoted exactly when it has neither job nor key, and terminal exactly when a receipt is recorded, and no key serves two plans |
| `PlanAuthority.OpKeepsSound` | cloud_offload/plan_protocol.py:1412-1678 | every operation and transaction keeps this; a terminal row changes exactly when its receipt is rewritten, a plan goes back exactly by the abort of a submission or a retry, and a job stands except for an abort |
| `PlanAuthority.TerminalForGood` | cloud_offload/plan_protocol.py:1663-1678 | over any run a terminal row keeps its state, job, key, request and quote, and some receipt |
| `PlanAuthority.TerminalForGoodExactly` | cloud_offload/queue.py:1584-1768 | a terminal row is the same all along a run if and only if no step of it rewrites the receipt of a plan that was closed before its job |
| `PlanAuthority.SubmissionStands` | cloud_offload/plan_protocol.py:1609-1652 | a submission that is not aborted keeps its job, key, request and quote over any run |
| `PlanAuthority.ReplayReturnsTheJob` | cloud_offload/queue.py:1402-1582 | submitting again with an accepted key, plan and request, through the store or the queue, returns the same job and changes nothing, after any run without an abort of it |
| `PlanAuthority.KeyIsRefusedForOthers` | cloud_offload/plan_protocol.py:1579-1582 | an accepted key is refused for any other plan or request |
| `PlanAuthority.VaultAgreesExactly` | cloud_offload/plan_protocol.py:1654-1661 | an operation keeps the private row in step with the public one, except exactly an abort that comes after the submission has moved on |
| `PlanAuthority.CompletionRewritesExactly` | cloud_offload/queue.py:1632-1698 | the completion of a job rewrites a terminal plan exactly when that was completed before its job with another receipt |
| `PlanAuthority.FailureRewritesExactly` | cloud_offload/queue.py:1700-1768 | likewise for a final failure and a plan that had already failed |
| `PlanAuthority.RetryStepsBackExactly` | cloud_offload/queue.py:1735-1766 | a retry steps a plan back exactly from running or cancelling |
| `PlanAuthority.LateAbortIsReachable` | cloud_offload/plan_protocol.py:1654-1661 | quote, accept, report as submitted, abort: the private row has lost the job of the public one |
| `PlanAuthority.CompletionRewriteIsReachable` | cloud_offload/queue.py:1632-1698 | a plan closed as completed before its job has its receipt replaced by the completion |
| `PlanAuthority.FailureRewriteIsReachable` | cloud_offload/queue.py:1700-1768 | a plan closed as failed before its job has its receipt replaced by the failure |
| `PlanAuthority.RetryStepBackIsReachable` | cloud_offload/queue.py:1735-1766 | a plan that is being cancelled is submitted again by a retry |
| `PlanStore.PlanProtocolStore.PreflightPlan` | cloud_offload/plan_protocol.py:1412-1481 | the updates and answers of a preflight |
| `PlanStore.PlanProtocolStore.SubmitPlan` | cloud_offload/plan_protocol.py:1558-1607 | a submission is accepted afresh if and only if no row holds its key, its plan is quoted and without a job, the stored report has its quote and candidate, and the report expires after now; then exactly its two rows change; when each error is raised, and when an earlier job is returned |
| `PlanStore.PlanProtocolStore.CancelPlan` | cloud_offload/plan_protocol.py:1609-1619 | the update of a cancellation |
| `PlanStore.PlanProtocolStore.SyncPlanStatus` | cloud_offload/plan_protocol.py:1621-1643 | the update and answer of a status report |
| `PlanStore.PlanProtocolStore.ReconcileSubmission` | cloud_offload/plan_protocol.py:1645-1652 | the update of a reconciled submission |
| `PlanStore.PlanProtocolStore.AbortSubmission` | cloud_offload/plan_protocol.py:1654-1661 | the two updates of an abort |
| `PlanStore.PlanProtocolStore.ClosePlan` | cloud_offload/plan_protocol.py:1663-1678 | the update and answer of a closure |
| `PlanLaws.SubmissionIsFreshExactly` | cloud_offload/plan_protocol.py:1558-1607 | the same over the rows alone, with the condition of every error and of every replay |
| `PlanLaws.AcceptanceIsFreshExactly` | cloud_offload/queue.py:1402-1582 | the same for the transaction of the queue, which also needs the name of the job to be free |
| `PlanLaws.QuoteIsStoredExactly` | cloud_offload/plan_protocol.py:1412-1481 | a quote is stored exactly when it has not expired and its plan is new or has only an expired one; when it is refused, and which report is returned otherwise |
| `PlanLaws.StatusMovesExactly` | cloud_offload/plan_protocol.py:1621-1643 | the six moves that a status report can make, and nothing else changes |
| `PlanLaws.RequestsMoveExactly` | cloud_offload/plan_protocol.py:1609-1661 | what a cancellation, a reconciled submission and an abort change, row by row |
| `PlanLaws.AbortUndoesSubmission` | cloud_offload/plan_protocol.py:1654-1661 | aborting a fresh submission frees its key and lets the same submission be accepted again |
| `PlanLaws.ClosesExactly` | cloud_offload/plan_protocol.py:1663-1678 | when a plan is closed, with which state and receipt, and when each error is raised |
| `PlanLaws.CancelsExactly` | cloud_offload/queue.py:1584-1630 | when the cancellation of a job closes its plan, and when it is refused |
| `PlanLaws.CompletesExactly` | cloud_offload/queue.py:1632-1698 | likewise its completion |
| `PlanLaws.FailsExactly` | cloud_offload/queue.py:1700-1768 | likewise its failure, or the retry that steps its plan back |
| `PartitionCodec.Encoder.Encode` | cloud_offload/partition_protocol.py:120-178 | accepts exactly the portable values within the item budget; the node decodes to the value against the side tables and against every later growth of them |
| `PartitionCodec.Encoder.EncodeDict` | cloud_offload/partition_protocol.py:167-175 | the same for dictionaries, whatever the order of their keys |
| `PartitionCodec.Encoder.EncodeGeometry` | cloud_offload/partition_protocol.py:152-162 | the same for native geometry, whose fields are validated on both sides |
| `PartitionCodec.DecodesGrows` | cloud_offload/partition_protocol.py:114-178 | what was encoded earlier still decodes after the tables grew |
| `PartitionCodec.NamesAreInjective` | cloud_offload/partition_protocol.py:138-151 | two entries of a side table never share a name, beyond six digits too |
| `PartitionCodec.NormKeepsGeometry` | cloud_offload/partition_protocol.py:70-111 | normalising byte strings keeps a native geometry valid |
| `PartitionBundle.DumpBundle` | cloud_offload/partition_protocol.py:220-247 | what is written loads as the value; a value that is portable and fits is refused only because the tree that stands for it makes too large a manifest, and any other is refused by the codec |
| `PartitionBundle.BundleLoads` | cloud_offload/partition_protocol.py:250-289 | every member that is written passes the checks of the loader |
| `PartitionBundle.BlobMemberIsSafe` | cloud_offload/partition_protocol.py:258-263 | the names of blob members are safe paths |
| `PartitionLaws.EveryPlaceArrives` | cloud_offload/partition_protocol.py:114-218 | what arrives has the places of what was sent, with the same in each: of a byte string its content, of a tensor its shape and elements, of a container its kind and its keys or its length |
| `PartitionLaws.PortableExactly` | cloud_offload/partition_protocol.py:120-178 | a value is portable exactly when what stands at each of its places may, at its depth |
| `PartitionLaws.DecodesExactly` | cloud_offload/partition_protocol.py:181-217 | a tree decodes exactly when every node is readable where it stands: not too deep, naming what the archive has, a native object with the fields of its kind |
| `PartitionLaws.LoadsExactly` | cloud_offload/partition_protocol.py:250-289 | an archive is loaded exactly when no name repeats, leaves the directory or is unexpected, the manifest is there and not too large, and the tree decodes against the members that are there |
| `PartitionLaws.PartsAreBetweenSlashes` | cloud_offload/partition_protocol.py:262-262 | the parts of a path are what stands between its slashes |
| `WorkflowShape.MemoisedHashIsPlainIffAcyclic` | cloud_offload/recommendation_history.py:92-138 | the memoised hash solves the recursive definition if and only if the workflow has no cycle; with the cycle marker for self-links, if and only if it has none but self-links |
| `WorkflowShape.HashNodeIsPlain` | cloud_offload/recommendation_history.py:98-136 | on such a workflow neither memo nor stack changes an answer |
| `WorkflowShape.SolutionIsUnique` | cloud_offload/recommendation_history.py:105-136 | the recursive definition has one solution at most |
| `WorkflowShape.EqualHashesLinkAlike` | cloud_offload/recommendation_history.py:105-136 | nodes with equal hashes have the same class and facts, and link through the same inputs to the same outputs of sources with equal hashes |
| `WorkflowShape.ShapeIgnoresNamesAndOrder` | cloud_offload/recommendation_history.py:92-138 | the shape of a workflow whose only cycles are self-links does not depend on the order of its nodes or on their names |
| `WorkflowShape.CyclicShapeDependsOnOrder` | cloud_offload/recommendation_history.py:103-104 | on a cycle of two nodes the order matters |
| `WorkflowShape.ShapeHasher.NodeHash` | cloud_offload/recommendation_history.py:98-136 | the recursion terminates on every graph and computes the threaded hash |
| `WorkflowShape.ShapeHasher.WorkflowShape` | cloud_offload/recommendation_history.py:92-138 | the digests of all nodes with one shared memo |
| `CorruptionCanary.Benchmark.PrepareCorruption` | cloud_offload/benchmark_faults.py:513-689 | it returns exactly when no trace was seen, the latest generation and the new objects could be read and none of its eleven calls failed, reading a body among them; then exactly the canary was added and is the latest generation; wherever it stops, the stores stay restorable: before the upload nothing has changed, a state document that could not be written takes the artifact with it unless its deletion is lost, and once it is written a failure with a clean cleanup leaves every store as it was found |
| `CorruptionCanary.Benchmark.ObserveCorruption` | cloud_offload/benchmark_faults.py:828-877 | returns exactly when the state document was read, the blob was not valid, the quarantine was seen, no call failed and the write was read back; writes nothing but the valid bytes, and only after all of that was seen |
| `CorruptionCanary.Benchmark.CleanupCorruption` | cloud_offload/benchmark_faults.py:692-825 | raises exactly when a call fails or it refuses; when it returns, what it overlooked is all that is left of the canary, so objects, artifacts and registered manifests are what they were before if and only if it overlooked nothing; wherever it stops it can be run again |
| `CorruptionCanary.Benchmark.CleanupWithState` | cloud_offload/benchmark_faults.py:765-825 | the same from a state document: the latest generation first, the document last; overlooks exactly the metadata that could not be read, other than the manifest and the index of the canary |
| `CorruptionCanary.Benchmark.CleanupWithoutState` | cloud_offload/benchmark_faults.py:715-764 | the same without one; overlooks exactly what could not be read outside the quarantine, the state document included |
| `CorruptionCanary.Benchmark.DeleteQuarantineObjects` | cloud_offload/benchmark_faults.py:448-466 | every page is visited, and exactly the quarantined objects are deleted, unless a call fails |
| `CorruptionCanary.Benchmark.MetadataObjectsReferencing` | cloud_offload/benchmark_faults.py:469-494 | exactly the metadata below the prefix that mentions the digest and could be read |
| `CorruptionCanary.OverlookedAnnouncement` | cloud_offload/benchmark_faults.py:469-494 | a run in which one read fails: the cleanup returns and leaves an announcement behind, and the next one restores everything |
| `CorruptionCanary.ReadableIsNotRefused` | cloud_offload/benchmark_faults.py:715-800 | no restorable store is refused while the state document and the latest generation can be read |
| `CorruptionCanary.OriginalIsTraceless` | cloud_offload/benchmark_faults.py:692-825 | restorable objects are the original ones if and only if no trace of the canary is left |
| `CorruptionCanary.TracelessIsOriginal` | cloud_offload/benchmark_faults.py:692-825 | disturbed objects without a trace of the canary are the original ones |
| `CorruptionCanary.PutKeeps` | cloud_offload/benchmark_faults.py:609-668 | which single writes keep the stores restorable |
| `CorruptionCanary.WorkerWriteKeeps` | cloud_offload/benchmark_faults.py:828-877 | what the job of the benchmark writes keeps them restorable, too |
| `ResourceCleanup.CleanupRunner.CleanupResources` | cloud_offload/benchmark.py:1722-1863 | ends although the clock stands still; baseline machines are never asked to stop, every other candidate not first seen absent is, at most a bounded number of times, and whether the last request was granted is on record; absence is reported exactly on a last inventory that was read, which is missing only when the deadline has passed or the reading failed |
| `ResourceCleanup.CleanupRunner.StopAll` | cloud_offload/benchmark.py:1775-1863 | the same for the rounds and the final inventory |
| `ResourceCleanup.CleanupRunner.RequestFirst` | cloud_offload/benchmark.py:1775-1789 | one request for every machine not seen absent |
| `ResourceCleanup.CleanupRunner.RetryUntilGone` | cloud_offload/benchmark.py:1790-1836 | goes on until all are seen absent, the rounds are used up or the deadline has passed; in every round each machine that its inventory does not show absent is asked once more |
| `ResourceCleanup.CleanupRunner.AskAgain` | cloud_offload/benchmark.py:1812-1829 | asks once each machine not seen absent; nobody is pending exactly when all were |
| `ResourceCleanup.CleanupRunner.FinalInventory` | cloud_offload/benchmark.py:1837-1849 | the final inventory is read whenever the deadline has not passed, and once more after an interrupt |
| `ArtifactBootstrap.Bootstrap.ImportDeclaredArtifacts` | cloud_offload/artifact_bootstrap.py:223-334 | succeeds exactly when every source, copy and upload and the receipt are good, and then every declared artifact is there with the digest and length of its source, recorded with its own roles and plans, and the receipt accepted; which error each earlier failure gives; after a failure the artifacts are as found, and the receipt too, except exactly for a first receipt whose replacement raised after it took effect |
| `ArtifactBootstrap.ReceiptWithoutFiles` | cloud_offload/artifact_bootstrap.py:319-331 | a run to that exception: the receipt stays without its file, is not accepted, and the next import succeeds |
| `ArtifactBootstrap.Bootstrap.Stage` | cloud_offload/artifact_bootstrap.py:283-303 | passes exactly when what is there is right and everything else was copied well; every record is that of a declaration |
| `ArtifactBootstrap.Bootstrap.VerifyBootstrapReceipt` | cloud_offload/artifact_bootstrap.py:337-387 | accepts exactly a receipt for these declarations and digests whose files are all there |
| `ArtifactBootstrap.AcceptedIsThePayload` | cloud_offload/artifact_bootstrap.py:169-192 | a receipt is accepted if and only if it is the payload of the declarations and every declared file is there |
| `ArtifactBootstrap.Bootstrap.CheckSources` | cloud_offload/artifact_bootstrap.py:243-255 | exactly the sources that match their digest, the size limit and the declared size pass, and the error names what is wrong with the first that does not |
| `ArtifactBootstrap.Bootstrap.Publish` | cloud_offload/artifact_bootstrap.py:305-331 | succeeds exactly when the first upload of every missing digest is good; what was not there before is recorded once, and is exactly what a rollback removes |
| `ShadowAdmission.Judge` | cloud_offload/regional_replication.py:244-325 | recommended exactly when no disqualifying code applies; automatic exactly when no code applies in automatic mode |
| `ShadowAdmission.AdmitRecommendations` | cloud_offload/regional_replication.py:335-358 | the pass over the candidates in place computes the admission below |
| `ShadowAdmission.BudgetIsConserved` | cloud_offload/regional_replication.py:335-358 | the projected cost is the sum over the recommended candidates, and within any budget that is not negative |
| `ShadowAdmission.OneChargePerPlace` | cloud_offload/regional_replication.py:335-358 | at most one recommended candidate is charged for a new volume in a region of a provider |
| `ShadowAdmission.AdmissionIsGreedy` | cloud_offload/regional_replication.py:335-358 | a candidate is demoted exactly when it does not fit after those before it, and one that may be copied automatically stays recommended |
| `ShadowAdmission.AdmittedExactly` | cloud_offload/regional_replication.py:335-358 | the fate of each candidate in terms of those before it: the first recommended one of a place without a volume keeps its charge, a later one is charged nothing, and it stays recommended exactly if it fits the budget with them |
| `JobProgress.ProgressNeverFalls` | cloud_offload/job_visibility.py:346-375 | appending events, letting time pass and raising the progress of the job never lowers what is shown, once an event with a time of the furthest stage was seen |
| `JobProgress.NeverFallsExactly` | cloud_offload/job_visibility.py:346-375 | nothing that can follow lowers what is shown, rounded to tenths, if and only if the furthest stage has an event with a time, or no more is shown than what was observed or the beginning of that stage would show |
| `JobProgress.ReportFalls` | cloud_offload/job_visibility.py:346-375 | otherwise a first timed report of the furthest stage shows less |
| `JobProgress.ProgressIsBounded` | cloud_offload/job_visibility.py:346-375 | an unfinished job shows between 0 and 99 |
| `JobProgress.ShowsWhatWasObserved` | cloud_offload/job_visibility.py:346-375 | an unfinished job shows at least its own progress and every reading of its events, up to 99, and a failed one no more |
| `JobProgress.FurthestExactly` | cloud_offload/job_visibility.py:346-375 | the furthest stage was reported, and none further was |
| `JobProgress.StartExactly` | cloud_offload/job_visibility.py:362-367 | a stage starts with the earliest of its events that has a time |
| `JobProgress.ProjectionAdvances` | cloud_offload/job_visibility.py:19-36 | the estimate of a later stage is never below that of an earlier one |
| `JobProgress.GuessedStageCanFall` | cloud_offload/job_visibility.py:275-278 | the first event can show less than the stage guessed from the status |
| `JobProgress.UntimedStageCanFall` | cloud_offload/job_visibility.py:364-371 | an event without a time can let the progress fall later |
| `CandidateRanking.RankCandidates` | cloud_offload/preflight.py:381-466 | a permutation ranked from 1 to n by scores rounded to nine places; the choice is the first fully priced candidate; no fully priced one is cheaper, or faster, than the cheapest or the fastest choice, and none dominates the balanced one if no dominating pair shares the least rounded score; there is none exactly in manual mode or when none is fully priced |
| `CandidateRanking.CheapestAndFastestAreBest` | cloud_offload/preflight.py:418-448 | by cost or by time alone the choice is a best one, with no condition: the estimates have fewer places than the scores |
| `CandidateRanking.MidpointsAreExact` | cloud_offload/preflight.py:348-362 | midpoints of costs in millionths and of times in thousandths are not changed by rounding to nine places |
| `CandidateRanking.BalancedIsBestExactly` | cloud_offload/preflight.py:418-448 | no candidate dominates the balanced choice, however the remaining sort keys fall, if and only if no dominating pair of fully priced candidates shares the least rounded score |
| `CandidateRanking.NarrowRangesTellApart` | cloud_offload/preflight.py:408-425 | this is so whenever costs spread over less than 175 dollars and times over less than 325,000 seconds |
| `CandidateRanking.UnpricedStretches` | cloud_offload/preflight.py:396-402 | an unpriced offer beside a priced one spreads the costs over a million dollars |
| `CandidateRanking.UnpricedOfferHidesTheCheaper` | cloud_offload/preflight.py:396-448 | beside an unpriced offer, the dearer of two offers that take equally long is chosen |
| `CandidateRanking.BoundsAreUnique` | cloud_offload/preflight.py:396-404 | the offers determine the bounds that scores are scaled by |
| `CandidateRanking.RoundedGrows` | cloud_offload/preflight.py:425-425 | rounding never reverses two scores |
| `CandidateRanking.DominatingScoresLower` | cloud_offload/preflight.py:408-425 | a candidate that is better on one estimate and no worse on the other has the lower balanced score |
| `CandidateRanking.SortRanked` | cloud_offload/preflight.py:427-437 | the sort orders the candidates and loses none |

## Left out

- Offers, placement, environments and start-up scripts: whether a wish has an offer, may fall back or has a cold offer is an input of the dispatcher, and which offer is chosen does not show in its leases.
- Jobs, events and launch backoff: failing, requeueing and publishing may raise and change nothing that leases depend on.
- A transaction of the queue that commits and raises all the same.
- A launch that takes effect only after its call has returned or raised is a step of the protocol, but not among what happens between the calls of `Dispatcher`.  Whether the bundled connectors can rent so late is a parameter of `Connectors`.
- Deadlines of leases: the set of leases whose deadline has passed is an input of reconciliation.
- Instances of a worker's profile and the registration of runners are inputs of the checks in `Tick`.
- Several volumes: the cache registry is modelled for the rows of one; a missing volume and its deletion are not.
- Statuses that `upsert_volume` and `mark_volume` set by hand, which may contradict the health flag.
- Counters, timings and reasons on artifact rows and invalidations.
- A sorted list of digests is the multiset of its entries, in the coverage of a volume and in the shape of a workflow.
- Compatibility and policy of artifacts are an arbitrary predicate on their stored keys.
- Replica targets and their budget.
- Damaged rows of the plan store, redaction of reports, and the agreement of preflight replays with `lookup_preflight`.
- PlanStore.PlanProtocolStore.SubmitPlan: takes the key itself, where the code stores an injective digest of it.
- PlanValidation.ValidateCloudPlan: field checks that do not concern the graph are flags of the plan and end in the validator's own error, although a value that cannot be hashed, as the kind of a stage or the residency of a policy, raises a type error in the code.
- The state of a job is an input of the queue's transactions on plans.
- JSON, ZIP, safetensors and SQLite are mathematical values, lists of members, and maps with atomic updates; strings with lone surrogates, which JSON output cannot carry, and tensors that share storage, which the safetensors writer may refuse, are not modelled.
- PartitionBundle.DumpBundle: the size of a manifest is an arbitrary function of its tree.
- SHA-256 is injective in `WorkflowShape` (a digest is the tree it was made from) and an arbitrary function in `ArtifactBootstrap`.
- Whether the canary's blob changes while its bytes settle is an input of the preparation; an object that is read back after a write is read whole, or raises.
- CorruptionCanary.Benchmark.PrepareCorruption: `indexes/latest` is taken to hold the generation's text and nothing else, as it is restored from it.
- ResourceCleanup.CleanupRunner.CleanupResources: an inventory that does not cover a candidate's provider counts as not listing it, as in the code; a clock or sleep that fails other than by an interrupt is not modelled.
- ArtifactBootstrap.Bootstrap.ImportDeclaredArtifacts: removing published files during a rollback does not fail; an interrupt, which the code does not catch, is not modelled.
- Regional demand, covered regions and the order of candidates before admission: admission is proved for every order.
- JobProgress.NeverFallsExactly: the table that maps event types to stages is left out; times and percentages are exact before they are rounded.
- CandidateRanking.RankCandidates: scores are exact before they are rounded, where the code computes in floating point; the sort keys behind the score are one number.
- CacheCoverage.VolumeCoverage: takes the text of an artifact's digest for the digest; a null one in the selected manifest, which the code compares as null and cannot sort among texts, is not modelled.
- Connectors.SafeExactlyWhenReliable: apart from the failures, names and states that it is about, a connector gives the answer of its provider, and that one is true; a reply that cannot be parsed is a failure.
- HTTP clients, connectors, tunnels, streaming, configuration, profiles, node packs, credentials and process handling.
