# Verified model of the RWX volume driver

A Dafny 4.11 model of a Kubernetes driver that serves ReadWriteMany volumes
through one NFS share-manager pod per volume, and proofs about its two
protocols that keep their state in Kubernetes objects, and about the node
allocator they share. `dafny verify dfyconfig.toml` checks everything.

**The failover controller.** For one bound claim, `FailoverModel` is a state
machine in which every API call is one step: `NextCall` is the program, the
`Call...` functions are what a call does to the cluster. Between two calls
anything may happen: the controller crashes, a call fails, the kubelet changes
phases, nodes come and go, the attacher adds and removes attachments, a deletion
lags behind its request, the CSI driver creates or deletes objects.
`PlacementSafety`, `RecordHistory`, `AttachmentSafety`, `EvictionSafety`,
`RotationRuns`, `Isolation` and `Teardown` prove what every run keeps,
`EvictionEffect` what evictions do to the pods themselves, `Surroundings` what
the rest of the cluster can do. `Convergence` bounds the
number of passes to recovery while the cluster moves between the calls of each
pass. `EvictionDebts`, `FailoverTriggers`, `HistoryReset` and `Witnesses` state
exactly when the code evicts, fails over, goes on to place and forgets its
history, and show with runs that the theorems' conditions are needed. `Passes` puts undisturbed calls
together into whole passes, and `PassOutcomes` says what a pass achieves in each
situation. `ReconcileCode` is the controller as it is written, a class that
changes its record in place, loops and returns early; a ghost machine runs
alongside, so that every pass of the code is proved to be a run of the machine
and the theorems about runs are theorems about the code.

**Many volumes.** `Volumes` puts the objects of all volumes into one cluster,
found by name, adds the CSI driver placing pods call by call, and proves that
every run of all of them together is, for each volume, a run of its own machine;
`VolumesSafety` draws the conclusions. `Fleet` is the picker's view of all
share-managers, and `FleetRefinement` proves that the controllers and the CSI
driver only make moves of the fleet.

**The recovery backend.** `MergePatch` is section 2 of RFC 7396 as a recursive
function, `RecoveryStore` the ConfigMap and the patch each handler sends,
`RecoveryTrace` the meaning of whole request histories, `RecoveryConcurrency`
the handlers as separate GET and PATCH calls on any number of replicas.
`RecoveryBackend` is the handlers as written and `GaneshaClient` their client,
both as classes.

**Volumes and nodes.** `Placement` is the picker, `Rotation` what its reset
rule amounts to, `VolumeDriver` CreateVolume and DeleteVolume with their polling
loops, `StateRecord` the stored record, `Names` the derived names, `Capacity`
the 64-bit size arithmetic. `Base` and `KeyOrder` hold vocabulary.

## Modelling decisions

- A call fails (`Answer(false)`) with anything but the "not found" and
  "already exists" answers the code treats specially. A call that takes effect
  although its answer is lost is the effect followed by a crash.
- One controller process runs one pass at a time per claim. The claim's name
  and namespace and the volume id are constants of a run, so the record's
  volume field is not part of `ShareState`.
- Text in a ConfigMap is either the encoding of a value or other text, which
  reads as a fresh record or an empty bucket. Integers are exact except in
  `Capacity`, where every operation wraps around at 64 bits.
- A pod carries its node selector (`target`), and `bound` says whether
  `spec.nodeName` is set. Deletions of pods and attachments mark the object;
  it disappears later, or not at all.
- `trail` and `log` in the machine are notes of an observer: the first host
  recorded and then every host placed on, in order, and the placements and
  evictions. No step reads them.
- What happens to the cluster from outside is not under the code's control, so
  its events are as free as the theorems need; `Surroundings` shows that they
  are not too weak.
- Some definitions (`Rotates`, `Leads`, `Reaches`, `Linked`, `Takes`,
  `MayOccur`) are guarded by the predicate `Shown`, which is always true: the
  verifier unfolds them only where a proof asserts it. Without that, every lemma
  that mentions a run unfolds the whole machine and the proofs are many times as
  expensive.

## Where the code does not do what its documentation says

Each of these is a theorem; where the code meets the promise at times, the
theorem says exactly when.

- The repository's README promises that clients reclaim their state after a
  restart. `create` moves the version annotation at once, so a restarted server
  reads nothing back (`RestartReadsNothing`), and ending grace with the same
  version empties the bucket once more without removing any bucket from the
  store (`EndGraceForgets`).
- "Resets automatically once all nodes were tried": a failed listing resets
  the history too (`ForgetsExactlyWhen`, `StoredHistoryExactly`,
  `UntriedNodeForgotten`).
- "When its node goes NotReady": a failed look at the node counts as not ready,
  so a healthy pod on a ready node can be failed over (`FailsOverExactlyWhen`,
  `HealthyPodFailedOver`); a pod that is still Pending on a node that is not
  ready is never replaced (`PendingIsNeverReplaced`).
- "Controller waits for the volume to detach": a failed read counts as
  detached (`ProceedsExactlyWhen`, `FailedReadBreaksSingleAttachment`).
- "Controller evicts workload pods": when the pod is missing, a crash after
  recording "failing_over", or a failed listing or deletion, skips the eviction
  for good (`EvictsExactlyWhen`, `PlacedUnpaidExactlyWhen`,
  `CrashSkipsEviction`). When a failover of a pod that is still there is cut
  short, the next pass evicts again, unless the pod is gone or has recovered by
  then.
- The comment on the cleanup in CreateVolume says that retries leak nothing. It
  is skipped when the pod cannot be placed: claim and service stay behind
  (`CreateVolume`, `LeaveBehind`).
- A pod of the CSI driver is tolerated at creation time. On a node that was
  tried before the latest failure it breaks the record once it is seen running
  (`RecordSoundExactlyWhen`, `DriverElsewhereBreaksRecord`); on a node never
  tried it leaves the record sound, but the controller no longer knows its host
  until then (`DriverFitsExactly`).
- A merge patch without nulls can lose keys, where a string replaces an object
  (`NullFreeKeepsKeys`, `LeafOverObjectLosesKeys`).
- Two volume ids that differ only in '.', '_' and '-' share all their objects
  (`NamesCollide`, `ObjectsShared`).

## Model

| member | source | states |
|---|---|---|
| `Placement.PickNode` | src/provision.rs:227-256 | the result is ready, unoccupied and not avoided; there is none only if every ready, unoccupied node is avoided |
| `Placement.PickNodeTakesFirst` | src/provision.rs:239-255 | it is the first of the listing that can be taken |
| `Placement.PickWithResetComplete` | src/controller.rs:374-385 | with fixed listings the pick succeeds if and only if an eligible node other than the latest failure exists; its result is not in the history it leaves, the latest failure stays last in it, and the history is cut exactly when it had more than one entry and held every eligible node |
| `PlacementSafety.CallKeepsInv` | src/controller.rs:136-284 | every API call, answered or failed, keeps the placement invariant, for each point the pass can be at |
| `PlacementSafety.PlacementSafe` | src/controller.rs:189-202 | in every run with crashes and failures anywhere, and with the CSI driver creating the pod where it fits: the history has no duplicates, the recorded node is new or its last entry, a pod the controller created is on the stored node or on the last failed one, and no host is ever replaced by itself, also across resets and when a node recovers while its pod lingers |
| `RecordHistory.HistoryNeverRepeats` | src/controller.rs:235-243 | in every run at all, whatever the CSI driver creates or deletes, the stored history has no duplicates |
| `RecordHistory.RecordSoundExactlyWhen` | src/controller.rs:196-201 | at every moment of a run the recorded node is new or the latest failure, if and only if every node that is recorded because the pod runs there is |
| `PlacementSafety.DriverFitsExactly` | src/controller.rs:249-252 | a pod created by the CSI driver keeps the inductive invariant behind placement safety if and only if one exists already, or no pass acts on its absence and its node is the host on record, if there is one |
| `PlacementSafety.VerdictMeans` | src/controller.rs:178-293 | every pass asks to be run again within a minute; a failed call that ends it is reported as an error, except the deletion of the pod and one listing of attachments; the longest wait is asked for only with a serving host on record that the pod is meant for |
| `AttachmentSafety.SingleAttachment` | src/controller.rs:226-252 | if the two reads before a placement are answered, in every interleaving all attachments of the backing volume are to the node of the share-manager pod, although check and creation are separate steps |
| `EvictionSafety.EvictionBeforePlacement` | src/controller.rs:217-224 | in runs not cut short between recording and evicting, every placement directly follows an eviction in the log, and each eviction deleted exactly the listed pods that mount the claim |
| `EvictionSafety.VictimsExact` | src/controller.rs:473-498 | the deleted names are those of the pods mounting the claim, and no others |
| `EvictionEffect.CallMarksExactly` | src/controller.rs:489-495 | when the deletion of a workload pod is answered, exactly the pods of that name become marked; every other pod, and every pod on every other call, stays as it is |
| `EvictionEffect.OnlyMountingPodsMarked` | src/controller.rs:473-498 | in every run, a call changes a workload pod only by marking it, and only if a pod of that name was listed as mounting the claim |
| `EvictionEffect.EvictionMarksExactly` | src/controller.rs:473-498 | from an answered listing on, with any answers, the pods marked are exactly those of the names whose deletion was answered; if one was for each victim, a pod ends up marked if and only if it was before or a listed pod of its name mounts the claim |
| `EvictionDebts.ListingEvictsExactlyWhen` | src/controller.rs:473-498 | from the listing on, with any answers and anything moving in between, all victims are evicted if and only if the listing is answered and so is a deletion of each |
| `EvictionDebts.EvictsExactlyWhen` | src/controller.rs:214-224 | a pass that finds no pod evicts all victims if and only if "failing_over" was not recorded before, its record is saved, the claim is named, the listing is answered and so is a deletion of each victim, whatever moves between its calls |
| `EvictionDebts.PlacedUnpaidExactlyWhen` | src/controller.rs:217-247 | a placement directly follows an eviction if and only if its pass began with the log ending in one, or with a record other than "failing_over" and a named claim |
| `FailoverTriggers.StartsFailoverExactlyWhen` | src/controller.rs:181-211 | a call starts the failover if and only if it is the answered look at a dead pod, or the look at the node of a running one and it fails or shows the node not ready |
| `FailoverTriggers.FailsOverExactlyWhen` | src/controller.rs:181-284 | for all answers, with crashes and everything but the pod moving between the calls: the pass marks the pod for deletion if and only if the pod is dead or the look at its node failed or showed it not ready, and no crash, failed look, failed save, failed listing or failed deletion of the pod cut the pass short |
| `FailoverTriggers.PendingIsNeverReplaced` | src/controller.rs:211 | in every run in which the pod stays Pending and nobody else deletes it, it is neither marked nor replaced, with crashes, failures, and nodes coming and going |
| `Rotation.Extend` | src/controller.rs:235-243 | placing on an untried node keeps the rotation: rounds visit each node once, windows visit all |
| `Rotation.ExtendAfterReset` | src/controller.rs:376-381 | so does the placement after a reset, which starts the next round with the node that is kept |
| `RotationRuns.BoundedRotation` | src/controller.rs:374-385 | in every run whose picks see the same n >= 2 eligible nodes in any order: all hosts are among them, and all differ until n have been used; the history is the part of the trail since the current round began, without repetition; each complete round visits every node exactly once, consecutive rounds sharing the kept one; and any 2n - 2 consecutive hosts include every node |
| `Isolation.ForeignAttachmentsUntouched` | src/controller.rs:410-431 | in every run, no call of the controller changes an attachment of a volume other than its backing volume, even if the listing it works from is out of date |
| `Surroundings.AnyPhase` | src/controller.rs:181-211 | the pod can be bound to its own target and get into every phase from every other |
| `Surroundings.DeletedThenGone` | src/csi.rs:209-228 | whoever deletes the pod, it is marked at first and gone later |
| `Surroundings.AttachedAndDetached` | src/controller.rs:419-429 | an attachment with a new name comes and goes, and all others stay as they are |
| `Surroundings.BoundThenAttached` | src/controller.rs:455-467 | the backing claim is bound once, and its volume is attached only where the pod runs |
| `Teardown.TeardownIsStable` | src/controller.rs:150-153 | once the claim is terminating and no pass is in flight, each of pod, backing claim, service and state ConfigMap that is removed stays absent whatever happens |
| `Teardown.DeletionsRemoveAll` | src/csi.rs:209-228 | the deletions of DeleteVolume, on a terminating claim with no pass in flight, remove everything the volume consists of, and touch nothing else |
| `Teardown.ReturnsExactlyWhen` | src/controller.rs:150-257 | an object gone from a terminating claim can come back if and only if the pass in flight has yet to create it: the ConfigMap from the first two calls, the service from the first four, the pod from any call before its creation as long as the record can be saved, the backing claim never |
| `Passes.CallCloser` | src/controller.rs:178-257 | every call, answered or failed, brings a pass closer to its end, so every pass ends |
| `Passes.FailedCallChangesNothing` | src/controller.rs:136-284 | a call that fails leaves the cluster as it is |
| `Passes.LateCallChangesNothing` | src/controller.rs:249-252 | so does a call to create what is there already, or to patch or delete what is gone; a pass that comes too late to create the record goes on with a new one in hand |
| `Passes.PassIsRun` | src/controller.rs:136-257 | an undisturbed pass is a run of the step machine |
| `PassOutcomes.PassFailsOver` | src/controller.rs:259-284 | a pass on an unhealthy pod stores the failing node as the latest failure, with no host and "failing_over"; it marks the pod, exactly the attachments that share a name with one of the backing volume, and exactly the pods that share a name with one mounting the claim, none when the claim has no name; and it changes nothing else |
| `PassOutcomes.PassAwaitsDetach` | src/controller.rs:214-233 | a pass that finds no pod while the volume is attached creates none, marks exactly the attachments of the volume, stores "failing_over" and evicts exactly the mounting pods unless that was stored before; nothing else changes |
| `PassOutcomes.PassPlaces` | src/controller.rs:235-252 | a pass that finds no pod and nothing attached, with a node to spare, creates the pod exactly where the pick with reset says, an eligible node other than the latest failure, and stores that node as "starting" with the history the pick left; nothing else changes but the eviction |
| `PassOutcomes.PassFindsNoNode` | src/controller.rs:235-244 | without such a node the pass creates nothing, and what the pick did to the history is not stored |
| `PassOutcomes.PassWaits` | src/controller.rs:48-53 | a pass on a pod that has yet to start only makes up for a missing service and a missing record, which is then without a node, without a history and "starting" |
| `PassOutcomes.PassRecords` | src/controller.rs:189-202 | a pass that finds the pod running, not on a node that is not ready, stores its host as the serving one, keeps the history, and changes nothing else |
| `Convergence.CallHeals` | src/controller.rs:178-284 | every answered call, at every point of a pass, keeps the volume healable and brings the state in which the pass will end no further from the goal |
| `Convergence.SettlingHeals` | src/controller.rs:178-284 | so does everything the cluster does between two calls: pod starts and removals, attachments coming and going, other volumes' pods, nodes with the same readiness |
| `Convergence.Converges` | src/controller.rs:178-284 | with answered calls, stable readiness, a node that stays free and a cluster that lags at most `limit` rounds in a row, at most 7 * (limit + 1) rounds, each a pass interleaved with the cluster's moves, lead from any healable state to a running pod on a ready node that is recorded there; the measure is lexicographic in stations left and patience left |
| `ReconcileCode.Controller.LoadOrCreateState` | src/controller.rs:306-334 | the code loads or creates the record with the machine's calls and ends up with the machine's record |
| `ReconcileCode.Controller.ForceDetach` | src/controller.rs:410-431 | the deleting loop makes exactly the machine's deletions |
| `ReconcileCode.Controller.EvictWorkloads` | src/controller.rs:473-498 | the evicting loop makes exactly the machine's deletions, and none when the claim has no name |
| `ReconcileCode.Controller.IsAttached` | src/controller.rs:434-467 | the answer leads on to the pick exactly where the machine goes on |
| `ReconcileCode.Controller.PickNodeWithReset` | src/controller.rs:374-385 | the in-place reset and the two attempts are the machine's, and undisturbed they compute `PickWithReset` |
| `ReconcileCode.Controller.StartFailover` | src/controller.rs:259-284 | the record changed in place is the one the machine saves, and the calls that follow are the machine's, in its order |
| `ReconcileCode.Controller.Recreate` | src/controller.rs:214-255 | the branch for a missing pod makes the machine's calls, early returns included |
| `ReconcileCode.Controller.Reconcile` | src/controller.rs:136-257 | whatever moves or fails during it, a pass of the code is a run of the step machine from idle to idle with the same cluster, and returns what the last call of that run calls for: when to run again, or an error; undisturbed it equals `Pass`; on a terminating claim it does nothing and awaits a change |
| `ReconcileCode.Controller.Serve` | src/controller.rs:124-257 | after any number of passes of the code from a freshly bound claim: placement safety; with answered calls also attachment safety and eviction before placement; undisturbed, the result is that of as many passes of the machine |
| `Witnesses.FailedReadBreaksSingleAttachment` | src/controller.rs:450 | one failed attachment listing places a pod on one node while the volume is attached to another |
| `Witnesses.ProceedsExactlyWhen` | src/controller.rs:434-467 | whatever moves between the two reads, the pass goes on to place if and only if one of them fails, the backing claim is unbound at the first or nothing is attached at the second |
| `Witnesses.CrashSkipsEviction` | src/controller.rs:217-224 | a crash after recording "failing_over" leads to a placement without any eviction |
| `Witnesses.ForgetsExactlyWhen` | src/controller.rs:376-381 | whatever moves between the two listings, the history in hand is cut if and only if a listing fails or every node they leave eligible was tried |
| `Witnesses.HealthyPodFailedOver` | src/provision.rs:258-274 | one failed look at a ready node fails over a healthy pod, from every cluster of this shape |
| `HistoryReset.FirstAttemptFailsExactlyWhen` | src/controller.rs:375-381 | the first attempt to pick fails if and only if a listing does, or every node the listings leave eligible was tried |
| `HistoryReset.StoredHistoryExactly` | src/controller.rs:235-247 | over the rest of the pass, with any answers, crashes and moves: the stored record stays as it is unless a placement is saved, and then its history is cut if and only if the first attempt failed |
| `HistoryReset.UntriedNodeForgotten` | src/controller.rs:375-381 | one failed listing cuts the stored history although a ready, free node has never been tried |
| `Witnesses.DriverElsewhereBreaksRecord` | src/controller.rs:196-201 | a pass that finds the pod running on a ready node keeps the record sound if and only if that node is new or the latest failure |
| `StateRecord.SaveLoad` | src/controller.rs:306-368 | saving a record and loading it returns it, whatever the ConfigMap held |
| `StateRecord.LoadMeans` | src/controller.rs:306-319 | a record is loaded exactly when the text under its key decodes to it; any other text is as good as a new record, never a missing one |
| `StateRecord.SaveFrame` | src/controller.rs:336-368 | saving writes the object's name and namespace, changes no other data key, annotation, label or metadata, and is idempotent |
| `StateRecord.SaveKeepsKeys` | src/controller.rs:355-368 | saving loses no key at any depth if and only if the record, the name and the namespace were no objects before, as in every ConfigMap |
| `MergePatch.KeepsExactlyWhen` | src/recovery.rs:151-158 | a merge loses no key at any depth if and only if the patch puts neither a null nor a string in the place of something with keys, for every target and patch |
| `MergePatch.NullFreeKeepsKeys` | src/recovery.rs:151-158 | a patch without nulls loses no key if and only if it puts no string in the place of an object |
| `MergePatch.LeafOverObjectLosesKeys` | src/recovery.rs:151-158 | otherwise it does: a patch without nulls under which a nested key is gone |
| `MergePatch.MergeIdempotent` | src/recovery.rs:113-120 | applying a patch twice is applying it once, for every target and patch |
| `MergePatch.MergeMember` | src/recovery.rs:185-191 | what a merge leaves at each key: unnamed keys keep their values, nulls remove, the rest is merged |
| `RecoveryStore.PatchApplies` | src/recovery.rs:93-295 | merging a handler's patch into the document it was computed from changes annotations and buckets exactly as the request says |
| `RecoveryStore.PatchFrame` | src/recovery.rs:93-295 | and nothing else: labels, other metadata, other members and data that is no text stay as they were |
| `RecoveryTrace.StaleBucketsUnseen` | src/recovery.rs:145-158 | after every history that keeps to the latest version, the store that never loses a bucket answers every request like one that keeps only the current bucket; versions may even recur |
| `RecoveryTrace.ReadIsExact` | src/recovery.rs:233-262 | the answer is, strictly ascending character by character, exactly the clients added directly or with a handle since the latest create or end of grace and not removed since |
| `KeyOrder.LessMeans` | src/recovery.rs:253-254 | one key comes before another if and only if it is a proper prefix of it or has the smaller character at the first difference |
| `RecoveryTrace.ReadsTheDocument` | src/recovery.rs:233-262 | for any document, the clients answered are those of the bucket under the annotated version, under the empty version if none is annotated; a missing or unreadable bucket has none |
| `RecoveryTrace.CreatedDocument` | src/recovery.rs:93-126 | create leaves its version annotated, an empty bucket under it and every other bucket as it was |
| `RecoveryTrace.HandlesAreExact` | src/recovery.rs:264-295 | the list stored for a live client is the handles pushed, in order, since it was last cleared |
| `RecoveryTrace.RestartReadsNothing` | src/recovery.rs:113-120 | a read straight after create is empty, whatever was stored |
| `RecoveryTrace.EndGraceForgets` | src/recovery.rs:147-158 | ending grace empties a bucket if and only if it is sent the current version, then that one, and every other bucket stays in the store unchanged |
| `RecoveryTrace.RepeatIsIdempotent` | src/recovery.rs:163-231 | repeating an add, a remove or a create changes nothing more in the whole document |
| `RecoveryConcurrency.Linearizable` | ganesha-patch/recovery_hcloud.c:601-603 | under the lock, for any number of replicas and hosts, any interleaving of their calls and any failures, store and answers equal those of the completed requests run one at a time |
| `RecoveryConcurrency.RequestCompletes` | src/recovery.rs:93-295 | from every state, a request whose calls are answered in a row completes with exactly the atomic effect and answer, in one call or two; one that fails before its last call leaves no trace |
| `RecoveryConcurrency.CmNameMeans` | src/recovery.rs:297-299 | the name of a host's ConfigMap, spelled out |
| `RecoveryConcurrency.HostsAreIndependent` | src/recovery.rs:297-299 | each host's ConfigMap depends only on that host's requests |
| `RecoveryConcurrency.NoClientIsLost` | ganesha-patch/recovery_hcloud.c:493-497 | at any moment of such a run a host reads back exactly its live clients |
| `RecoveryConcurrency.OverlapLosesUpdate` | src/recovery.rs:163-194 | without the lock, from every store, two overlapping adds are both acknowledged and the first is lost |
| `RecoveryBackend.ParseInput` | src/recovery.rs:73-79 | all trailing NUL bytes are cut, and nothing else, before the body is decoded |
| `RecoveryBackend.Backend.Create` | src/recovery.rs:93-126 | the handler as written has the atomic effect and answer, on its host only |
| `RecoveryBackend.Backend.EndGrace` | src/recovery.rs:128-161 | likewise |
| `RecoveryBackend.Backend.AddClientId` | src/recovery.rs:163-194 | likewise |
| `RecoveryBackend.Backend.RemoveClientId` | src/recovery.rs:196-231 | likewise |
| `RecoveryBackend.Backend.AddRevokeFh` | src/recovery.rs:264-295 | likewise |
| `RecoveryBackend.Backend.ReadClientIds` | src/recovery.rs:233-262 | the keys of the annotated bucket, strictly ascending; not found without a ConfigMap |
| `GaneshaClient.Ganesha.RecovInit` | ganesha-patch/recovery_hcloud.c:434-508 | a start-up announces the version drawn whenever its request is carried out, also if the answer is lost and the server stays down; the history keeps to the latest version over all incarnations, and other hosts' records are left alone |
| `GaneshaClient.Ganesha.RecovEndGrace` | ganesha-patch/recovery_hcloud.c:510-545 | sends the version of this incarnation and keeps the discipline |
| `GaneshaClient.Ganesha.AddClid` | ganesha-patch/recovery_hcloud.c:547-611 | likewise; a client without a tag is skipped |
| `GaneshaClient.Ganesha.RmClid` | ganesha-patch/recovery_hcloud.c:613-677 | likewise; the tag is dropped even when the call fails |
| `GaneshaClient.Ganesha.AddRevokeFh` | ganesha-patch/recovery_hcloud.c:766-850 | likewise |
| `GaneshaClient.Ganesha.ReadRecovClids` | ganesha-patch/recovery_hcloud.c:729-764 | client and backend together: exactly the live clients of this incarnation, strictly ascending |
| `GaneshaClient.NeighboursStayValid` | src/recovery.rs:297-299 | servers of different hosts share a backend: what one does leaves the other valid |
| `Volumes.ObjectsIsolated` | src/provision.rs:77-91 | no step for one volume changes the pod, service, backing claim, state ConfigMap or program of another, unless their ids agree up to '.', '_' and '-' |
| `Volumes.ObjectsShared` | src/provision.rs:77-91 | and if they agree the two share all of them |
| `Volumes.EveryVolumeRuns` | src/controller.rs:136-257 | every run of all controllers and of the CSI driver together, call by call, is, for each volume, a run of that volume's own machine |
| `Volumes.DriverPlaces` | src/csi.rs:167-177 | the driver's three calls, undisturbed, create the missing pod on the node the picker takes without a history, and change nothing else |
| `VolumesSafety.EveryVolumeIsPlacedSafely` | src/controller.rs:189-202 | placement safety of every volume in every run of all controllers and the CSI driver, as long as the driver's creations for that volume fit |
| `VolumesSafety.DriverAndControllerAgree` | src/provision.rs:81-91 | the CSI driver and the controller mean the same pod, claim, service and ConfigMap by a volume's id, under the names spelled out |
| `VolumesSafety.AttachmentsIsolated` | src/controller.rs:410-431 | in every run of all controllers no call for one volume touches an attachment of another |
| `FleetRefinement.OneShareManagerPerNode` | src/provision.rs:227-256 | in every run of all controllers and of the CSI driver, each listing, node listing and creation a step of its own with anything moving in between, in which each pick, creation and binding completes before the next pick: no two volumes' pods are on one node |
| `FleetRefinement.DriveKeepsOrder` | src/csi.rs:167-177 | every call with which the CSI driver places a pod is a move of the fleet that keeps it in order |
| `FleetRefinement.HappeningKeepsOrder` | src/controller.rs:239-252 | so is every step of a controller and of its surroundings |
| `Fleet.OnePerNode` | src/provision.rs:227-256 | the same for the picker's view: any number of volumes, placements in separate steps, failures at any point |
| `Fleet.UnboundIsInvisible` | src/provision.rs:229-234 | a pod without `spec.nodeName` does not influence any pick |
| `Fleet.UnboundPodsCollide` | src/csi.rs:167-177 | for any two volumes, any placers and any node, two attempts one after the other put both on that node if the first pod is not bound in time |
| `VolumeDriver.Cluster.RemoveStuckPod` | src/csi.rs:149-165 | for all answers, a deletion is sent if and only if the pod is found pending, and the pods end up as the bounded wait says |
| `VolumeDriver.AwaitedGoneMeans` | src/csi.rs:156-163 | that wait ends with the first poll that does not see the pod, or after all its polls |
| `VolumeDriver.Cluster.Choose` | src/provision.rs:227-256 | the node chosen is the first free one for the pods as they are at the listing call, and there is none if one of the two listings fails |
| `VolumeDriver.FirstFreeMeans` | src/provision.rs:239-255 | the first free node is the first of the listing that is ready with no pod bound to it, and there is none if and only if every ready node is occupied |
| `VolumeDriver.PickIsFirstFree` | src/provision.rs:227-256 | the picker takes it, in whatever order the pods are listed |
| `VolumeDriver.Cluster.EnsurePod` | src/csi.rs:167-177 | for all answers: the call succeeds if and only if the pod is found, or a node is chosen and the create is answered with nobody having created it first; a create is sent for that node only, and leaves exactly one new pod there, pending and not bound |
| `VolumeDriver.Cluster.AwaitRunning` | src/csi.rs:180-199 | for all answers: it succeeds if and only if some poll of at most `attempts` finds the pod running, poll i seeing the pods after i + 1 moves of the others; it stops at the first that does, and only after all of them otherwise |
| `VolumeDriver.Cluster.CreateVolume` | src/csi.rs:97-207 | with failing calls and pods changing underneath, which result when, for all answers: an internal error if and only if claim, service or pod cannot be provided; otherwise success if and only if a poll in time sees the pod running, and a deadline if and only if none does; success means claim and service exist and the pod was just seen running; a deadline means the deletion of pod, claim and service was the last thing sent; an internal error deletes neither, and with a reliable API leaves both behind; a pod is created only on the first free node of the pods listed for it; the sizes in numbers: 10 GiB, that is 10737418240 bytes, for no or no positive request, else the least whole number of GiB; a repeat on a running volume writes nothing; objects of other volumes are untouched |
| `VolumeDriver.ReliableProvisions` | src/csi.rs:128-177 | with a reliable API the provisioning fails if and only if the pod is missing when its turn comes, and every ready node is occupied at the listing or someone else creates it first |
| `VolumeDriver.LeaveBehind` | src/csi.rs:167-168 | in an empty cluster the call fails and claim and service stay |
| `VolumeDriver.NoNodeCannotPlace` | src/csi.rs:167-168 | without a ready node the pod cannot be placed, whatever moves meanwhile |
| `VolumeDriver.Cluster.DeleteVolume` | src/csi.rs:209-228 | the four deletions are sent, in order; claim, service and state ConfigMap are gone if and only if their deletion was answered, and with a reliable API the pod was marked |
| `VolumeDriver.VolumesAreIsolated` | src/csi.rs:209-228 | writes about one volume never name an object of another, unless the ids agree up to '.', '_' and '-' |
| `Names.NamesCollide` | src/provision.rs:77-91 | two ids share a derived name if and only if they agree after identifying '.', '_' and '-' |
| `Names.VolumeNameMeans` | src/provision.rs:77-79 | the name has the length of the id, no '.' and no '_', every other character in its place, and '-' exactly where the id has '.', '_' or '-'; an id without '.' and '_' is its own name |
| `Names.DerivedNamesMean` | src/provision.rs:81-91 | the names of pod, claim and state ConfigMap, spelled out |
| `Capacity.CapacityIsExact` | src/csi.rs:47-53 | the reported capacity is the least multiple of 1 GiB covering the request if and only if the request is at most 2^63 - 2^30 bytes, and then equals the size asked for; beyond that it wraps around to one of two negative numbers; the arithmetic stays in range exactly below that bound |
| `Capacity.DefaultSize` | src/csi.rs:47-53 | no request, or one that is not positive, means 10 GiB, reported as 10737418240 bytes |

## Left out

- HTTP, TLS, curl, the Kubernetes client, JSON encoding and decoding, and bearer-token checks: atomic store operations that succeed or fail.
- Pod, service and claim specifications, environment lookups and the NFS server's configuration text.
- The share-manager process (mkfs, mount, health loop, status API): its death shows as a change of phase.
- NodePublish and NodeUnpublish, endpoint discovery, identity and stub RPCs.
- Building client names, URLs and payloads in C, and the growth of the response buffer: client ids and handles are opaque strings.
- Recovery across hosts: records are kept per host name, so nothing is claimed about it.
- Wall-clock time: only the delay a pass asks for, "a later pass happens", "at most so many polls" and "a request completes before the lock is released" are kept.
- Claims that are not RWX or not bound: a pass on them makes no call and asks to be run again.
- A second controller process working on the same claim at the same time.
- ReconcileCode.Controller.Reconcile: has no crash of its own; a crash ends the run of the machine at that point, and the machine's theorems cover it.
- ReconcileCode.Controller.Serve: leaves the CSI driver's own creations out; the machine's theorems cover them under `DriverFits`.
- Convergence.Converges: needs one node that stays ready and free and is neither the present host nor the latest failure; nodes whose readiness changes and deletions by third parties start the count again.
- Volumes.EveryVolumeRuns: workload pods are kept per claim; a pod that mounts two claims is evicted for either, which shows as a change of the other claim's workloads.
- RecoveryConcurrency.Linearizable: a request whose PATCH takes effect although the client gave up is not covered; `OverlapLosesUpdate` shows why.
