# Proofs about the Multigres operator

The Multigres operator runs sharded PostgreSQL on Kubernetes. This project models the parts of it whose
correctness rests on interleavings, on stale reads or on text that is written by one function and read by
another, and proves what they promise. `dafny verify dfyconfig.toml` checks everything.

- **Multipooler client cache** (`PoolerCache`, `PoolerRuns`, `PoolerSafety`, `PoolerPromises`, `PoolerFreshness`,
  `PoolerResolver`). Each critical section of the resolver is one atomic step. Secret reads, caller cancellation and timers
  happen in between, in any order. The classes carry the fields of the source and are proved equal to the sections that the
  runs are made of. `PoolerFreshness` states every answer in terms of the reads that came before it.
- **Field-ownership tidy-up** (`FieldPaths`, `LegacyTidy`, `LegacyDecision`). The decision which leftover managedFields
  entries to drop, the JSON Patch built for it, and an interpreter for that patch (sections 4.2, 4.6 and 5 of RFC 6902).
- **Orphaned storage** (`OrphanRuns`, `OrphanSafety`, `OrphanWitnesses`, `OrphanLabels`, `OrphanSweep`, `OrphanCode`).
  Operators that mark and reclaim PersistentVolumeClaims, and garbage-collector passes that delete them, over a store with
  resourceVersions. `OrphanCode` shows that marking, reclaiming and sweeping take exactly the steps of the runs.
- **Cell deletion** (`CellDeletion`, `CellPass`). Stamp, drain, cancel and conditional delete; the pass that decides on them
  takes exactly the steps the runs allow.
- **Runtime-image promotion** (`PromotionRuns`, `PromotionTrace`, `PromotionText`). Concurrent promotion runs that move one
  Git branch by non-forced updates, what stands behind every move, and the rewriting of the image defaults.
- **Disruption preflight** (`Disruption`, `DisruptionCheck`, `DisruptionOutsider`). Observing every pooler, deciding,
  and what an acceptance proves. The consensus library is a record of functions about which nothing is assumed.
- **postgresql.conf** (`ConfigText`, `ConfigParse`, `ConfigLines`, `ConfigOrder`, `ConfigRender`, `ConfigHash`,
  `ReloadGate`, `RestartGate`, `Sizing`, `SizedFields`). Rendering, parsing, hashing, the reload marker, which changes
  restart and resource sizing.
- **Admission** (`Levels`, `ShardMerge`, `ShardResolve`, `ShardFields`, `Admission`, `LiteIdentity`). What the webhooks
  store, what the reconciler later resolves from it, setting by setting, and the identity of Lite clusters. `Backups` holds
  the merges of backup configurations and PVC deletion policies and the laws the proofs use.

## What the environment is taken to do

- Orphaned storage: one reconcile at a time per shard; a pod is created only after its claim was found unlabelled by an
  uncached read or after a committed clear. `CachedReclaimLosesStorage` shows that the uncached read cannot be dropped.
- Cell deletion: the cell controller never reads an older version than it has already read, and sees its TopoServer as
  stored when it reports it gone. Both are needed: `BackwardCacheDeletesServingCell` and
  `StaleAbsenceDeletesServingCell` are runs without them. That a cancelled delete never commits needs neither.
- Promotion: only promotion runs move the branch, others may delete it, and nobody builds on a promotion commit that was
  never published. Upstream ancestry is a strict partial order.
- Reload and restart gate: the hash gives hex digits and does not collide on the two pre-images at hand.
- Lite identity: admission requests are handled one after another, as the cluster and its templates are stored.

## Promises that hold with an exception

The model follows the code. Each promise below comes with its exact condition, proved for all runs or inputs, and with an
input that breaks it.

- `pkg/data-handler/poolerclient/resolver.go:372-374` says a stale shard reconcile cannot undo a forget. A call takes the
  lock separately to check, to take in a cluster its own read confirmed, and to attach. After any run no call from before
  the forget can undo it exactly when none stands at Attaching, the cluster found active or confirmed, or at Validating,
  the confirming read under way, or when the resolver is closed (`StaleCallsCannotUndoIff`). The runs are
  `ForgottenClusterCanRegainState` and `StaleConfirmationRegainsState`. With every readmission set aside, by activation
  or confirmation, only the calls at Attaching count (`ForgetSticksIff`).
- A live client shields its callers from failed refreshes. A call can fail at its next step exactly when it waits and its
  own context has ended (`LiveClientShieldsCallers`), and a call never cancelled does not fail at all
  (`UncancelledCallNeverFails`); the run is `JoinedCallerCanFailBesideLiveClient`.
- Orphaned claims are promised the retention. The label value is the clock cut to whole seconds, the clock is read before
  the patch commits, and `pkg/resource-handler/controller/shard/reconcile_deletion.go:194` reads it once for many
  patches. A deleted claim has been labelled at least for the retention less the cut and less the commit lag, which may
  leave nothing (`DeletedOnlyAfterRetention`, `EarliestIsReached`). It is the whole retention in every run exactly when
  the retention is zero, or cut and lag both are (`RetentionHonouredIff`); the runs are `LateCommitLeavesNoTime` and
  `AlmostASecondEarly`.
- `pkg/util/pvc/orphan.go:39-40` says the caller's copy is left alone until the patch succeeds. `MarkOrphan` changes it
  first and does not undo it, so it differs after every refusal, and is unchanged exactly when nothing was to be sent
  (`CopyKeptIff`, `RefusedMarkShows`). `ClearOrphan` does undo it.
- `pkg/webhook/handlers/defaulter.go:224-225` says the stored spec stays dynamic. It resolves as the written shard under
  any other list of cells exactly unless an inherited S3 backup lacks its section, which the schema excludes, or a pool
  left its replicas to the cells and the cluster had exactly one cell at one of the two moments only
  (`StoredSpecStaysDynamicIff`); the shard is `ReplicasAreFrozen`.
- `api/v1alpha1/common_types.go:614-615` says callers fall back to Retain when no level sets a PVC policy. On scaling the
  fallback is Delete (`pkg/resource-handler/controller/shard/reconcile_pool_pods.go:1590-1595`); on removal of the shard
  it is Retain (`ClaimsGoByNearestPolicy`); the levels are `UnsaidIsDeletedOnScaling`.
- A pooler outside the cohort is promised not to hold back others. Its harmless answer matters exactly when another
  pooler answered under the same identity (`OutsiderMattersOnlyAsTwin`); the probes are `SharedIdentityMatters`.
- The cover chosen for a tidied field survives the patch, and is a current entry exactly unless it turned into a leftover
  between read and patch (`GuardSurvives`); the list is `GuardCanTurnLegacy`. The field keeps an owner in any case.

## Model

| member | source | states |
|---|---|---|
| PoolerResolver.ClusterState.constructor | pkg/data-handler/poolerclient/resolver.go:154-164 | a new state has no client, no read outstanding and no error |
| PoolerResolver.ClusterState.EnterLoop | pkg/data-handler/poolerclient/resolver.go:167-231 | one pass of the refresh loop is the `Enter` section: closed, join, serve or lead |
| PoolerResolver.ClusterState.AfterWake | pkg/data-handler/poolerclient/resolver.go:201-220 | a woken cold-start waiter gets the client, the cached error, or goes round again |
| PoolerResolver.ClusterState.KeepExistingOrError | pkg/data-handler/poolerclient/resolver.go:342-370 | a failed read keeps the live client, and never caches a cancellation |
| PoolerResolver.ClusterState.RetireClient | pkg/data-handler/poolerclient/resolver.go:442-463 | the client joins the retired list with its full grace |
| PoolerResolver.ClusterState.FinishRead | pkg/data-handler/poolerclient/resolver.go:243-287 | the whole new state and the result after a Secret read, including rotation |
| PoolerResolver.ClusterState.Forget | pkg/data-handler/poolerclient/resolver.go:396-405 | the state is closed and its client retired, not closed |
| PoolerResolver.ClusterState.Close | pkg/data-handler/poolerclient/resolver.go:426-437 | the clients returned for closing are exactly those held, each once |
| PoolerResolver.ClusterState.FireTimer | pkg/data-handler/poolerclient/resolver.go:447-461 | a timer closes its client only if it is still on the retired list |
| PoolerResolver.OperatorCertResolver.ActivateCluster | pkg/data-handler/poolerclient/resolver.go:375-381 | activation only adds to the active set, and not after close |
| PoolerResolver.OperatorCertResolver.AttachState | pkg/data-handler/poolerclient/resolver.go:154-164 | one state per cluster, created at most once while it is registered |
| PoolerResolver.OperatorCertResolver.DetachState | pkg/data-handler/poolerclient/resolver.go:386-395 | forgetting takes the cluster out of both maps |
| PoolerResolver.OperatorCertResolver.BeginClose | pkg/data-handler/poolerclient/resolver.go:410-424 | close empties the registry once and hands out every state |
| PoolerRuns.FlightKept | pkg/data-handler/poolerclient/resolver.go:166-289 | every step keeps the single-flight invariant |
| PoolerRuns.LifeKept | pkg/data-handler/poolerclient/resolver.go:375-439 | every step keeps the life cycle of states: registered, forgotten or captured by Close |
| PoolerSafety.ClientsKept | pkg/data-handler/poolerclient/resolver.go:254-287 | every step keeps every client in one place |
| PoolerSafety.RunKeepsInv | pkg/data-handler/poolerclient/resolver.go:139-463 | all invariants hold after every run |
| PoolerSafety.EveryClientInOnePlace | pkg/data-handler/poolerclient/resolver.go:166-463 | each client ever made is current, retired or closed, exactly one of them, in one state, and closed at most once |
| PoolerSafety.NoClientOnClosedState | pkg/data-handler/poolerclient/resolver.go:254-287 | a client is built only by a finished read, for a state that is open |
| PoolerSafety.CloseClosesEverything | pkg/data-handler/poolerclient/resolver.go:410-439 | after Close every client of a cluster that was not forgotten is closed |
| PoolerSafety.GraceHonoured | pkg/data-handler/poolerclient/resolver.go:442-463 | a client not closed by Close was retired first and had its whole grace |
| PoolerSafety.SingleFlight | pkg/data-handler/poolerclient/resolver.go:190-252 | refreshing, a pending channel and one outstanding read are the same thing |
| PoolerSafety.NoLostWakeUp | pkg/data-handler/poolerclient/resolver.go:190-252 | a waiter's channel is closed or will be, and no channel is closed twice |
| PoolerSafety.CancellationNeverCached | pkg/data-handler/poolerclient/resolver.go:342-355 | a leader's own cancellation is never the cached error |
| PoolerSafety.HandedOutOpen | pkg/data-handler/poolerclient/resolver.go:173-189 | a client is handed out only while current on an open state |
| PoolerPromises.LiveClientShieldsCallers | pkg/data-handler/poolerclient/resolver.go:356-370 | beside a live client a call can fail at its next step exactly when it waits and its own context has ended |
| PoolerPromises.UncancelledCallNeverFails | pkg/data-handler/poolerclient/resolver.go:166-289 | a call never cancelled, on a state that stays open with a client, never ends in an error |
| PoolerSafety.JoinedCallerCanFailBesideLiveClient | pkg/data-handler/poolerclient/resolver.go:201-220 | a run in which that one failure happens |
| PoolerPromises.ForgetSettlesIff | pkg/data-handler/poolerclient/resolver.go:386-406 | right after a forget the cluster is in neither map and no call has yet to attach it, exactly when no call had before or the resolver is closed |
| PoolerPromises.OnlyReadmissionUnsettles | pkg/data-handler/poolerclient/resolver.go:294-324 | from there the one way back is an activation or a call's own uncached confirmation |
| PoolerPromises.ForgetSticksIff | pkg/data-handler/poolerclient/resolver.go:372-406 | after any run a forget sticks, whatever follows short of a readmission, exactly when no call has yet to attach a cluster it found active or confirmed, or the resolver is closed |
| PoolerPromises.StaleCallsCannotUndoIff | pkg/data-handler/poolerclient/resolver.go:294-324 | after any run no call from before the forget brings the cluster back, its confirming read included, exactly when none stands at Attaching or Validating or the resolver is closed |
| PoolerPromises.StaleConfirmationRegainsState | pkg/data-handler/poolerclient/resolver.go:294-324 | a run in which a confirmation under way at the forget brings back both maps |
| PoolerPromises.ForgottenClusterCanRegainState | pkg/data-handler/poolerclient/resolver.go:139-164 | a run in which a forgotten cluster gets a fresh state |
| PoolerFreshness.StatesShowHistory | pkg/data-handler/poolerclient/resolver.go:243-287 | over every run each open state shows its last counting read: when it completed, how it failed, and the version in use |
| PoolerFreshness.EnterAnswers | pkg/data-handler/poolerclient/resolver.go:166-231 | a call leads a read exactly when none is outstanding and the last that counted is older than 300 seconds, or 10 if it failed; joins exactly an outstanding first read; and is otherwise answered with the client, else the failure |
| PoolerFreshness.ClosedAnswers | pkg/data-handler/poolerclient/resolver.go:168-171 | a closed state answers with an error |
| PoolerFreshness.HandedOutFresh | pkg/data-handler/poolerclient/resolver.go:173-189 | a client handed out with no read outstanding rests on a read less than 300 seconds old, or 10 if it failed |
| PoolerFreshness.WakeAnswers | pkg/data-handler/poolerclient/resolver.go:201-220 | a woken waiter gets the client, else the failure that counted, else goes round again |
| PoolerFreshness.NewVersionRotates | pkg/data-handler/poolerclient/resolver.go:261-287 | a well-formed Secret of another version makes a new client current, retires the old one for its grace and answers with the new one |
| PoolerFreshness.OtherReadsKeepClient | pkg/data-handler/poolerclient/resolver.go:254-278 | the same version, or a read that failed, keeps the client and answers with it |
| PoolerFreshness.ColdFailureIsAnswered | pkg/data-handler/poolerclient/resolver.go:342-370 | without a client the leader gets the failure of its own read |
| PoolerFreshness.TimerClosesRetired | pkg/data-handler/poolerclient/resolver.go:442-463 | the timer, 60 seconds after retirement, closes the client |
| PoolerFreshness.ActiveIsHistory | pkg/data-handler/poolerclient/resolver.go:375-395 | a cluster is active exactly when it was activated or confirmed since it was last forgotten |
| PoolerFreshness.CheckPassesIff | pkg/data-handler/poolerclient/resolver.go:294-324 | a call passes the check exactly for such a cluster, and else confirms it with a read |
| FieldPaths.EmptyIff | pkg/ownership/ownership.go:228-242 | a trie is empty exactly when it claims no path |
| FieldPaths.HasThrough | pkg/ownership/ownership.go:228-242 | descending a trie along a prefix keeps the claims under that prefix |
| FieldPaths.ClaimsIff | pkg/ownership/ownership.go:228-242 | some claimed path extends p exactly when p is claimed or the trie below p is not empty |
| FieldPaths.Covers | pkg/ownership/ownership.go:230-242 | the walk answers yes exactly when some claimed path has p as a prefix; an ancestor alone never counts |
| FieldPaths.Iterate | pkg/ownership/ownership.go:302-326 | the iteration yields exactly the claimed paths |
| LegacyTidy.Preference | pkg/ownership/ownership.go:287-300 | every current entry and no leftover, own status managers first |
| LegacyTidy.GuardCovers | pkg/ownership/ownership.go:302-326 | a guard is a current entry that covers the path |
| LegacyTidy.GuardExists | pkg/ownership/ownership.go:302-326 | a path has a guard whenever some current entry covers it |
| LegacyTidy.PatchEffect | pkg/ownership/ownership.go:328-351 | the descending patch applies exactly when nothing it tests changed, and then removes exactly the chosen entries in place |
| LegacyTidy.NoFieldLosesItsOwner | pkg/ownership/ownership.go:267-351 | on any stored list that accepts the patch only leftovers go, and every owned path keeps an owner |
| LegacyTidy.OwnerSurvives | pkg/ownership/ownership.go:328-351 | every owned path of the stored list has a claim among the survivors |
| LegacyTidy.FreshReadAccepted | pkg/ownership/ownership.go:328-351 | a list that did not change since it was read accepts the patch |
| LegacyTidy.GuardTurnsLegacyIff | pkg/ownership/ownership.go:344-349 | a guard that passes its tests has become a leftover exactly when a main-resource entry of a shared manager name moved to the status subresource |
| LegacyTidy.GuardSurvives | pkg/ownership/ownership.go:328-351 | each removed path keeps its chosen cover in the result, a current entry exactly unless it turned into a leftover |
| LegacyTidy.GuardCanTurnLegacy | pkg/ownership/ownership.go:344-349 | a stored list where it does |
| LegacyTidy.NothingLeftToTidy | pkg/ownership/ownership.go:267-351 | tidying once leaves nothing to tidy |
| LegacyTidy.FirstCovering | pkg/ownership/ownership.go:302-326 | the first entry in preference order that covers the path |
| LegacyTidy.Judge | pkg/ownership/ownership.go:302-326 | a leftover is removable exactly when each of its paths has a guard, and those guards are returned |
| LegacyTidy.Decide | pkg/ownership/ownership.go:275-326 | the removed and the guarding indices are exactly the removable entries and their guards |
| LegacyTidy.BuildPatch | pkg/ownership/ownership.go:328-351 | the operations, highest index first |
| LegacyTidy.DropLegacy | pkg/ownership/ownership.go:267-351 | no patch for undecodable entries or nothing to remove, otherwise the decided one |
| LegacyDecision.LegacyIff | pkg/ownership/ownership.go:92-100 | which entries are left over, by manager name and subresource |
| LegacyDecision.PreferenceIsOrdered | pkg/ownership/ownership.go:287-300 | no foreign entry stands before one of this operator's, and each half is in list order |
| LegacyDecision.GuardIff | pkg/ownership/ownership.go:302-326 | the guard of a path is the first own entry that covers it, and a foreign one only when no own entry does |
| LegacyDecision.RemovableIff | pkg/ownership/ownership.go:267-326 | an entry goes exactly when it is left over, some entry is current, and current entries cover every path it claims but `.status` |
| LegacyDecision.AcceptedIff | pkg/ownership/ownership.go:328-351 | the patch is accepted exactly when removed entries are identical and guards have the same manager, operation, fields and, if set, subresource |
| OrphanSafety.InvKept | pkg/gc/pvc/pvc.go:96-200 | every step of operators and collector keeps the safety invariant |
| OrphanSafety.RunKeepsInv | pkg/resource-handler/controller/shard/terminating_pvc.go:173-230 | the invariant holds after every run |
| OrphanSafety.NeverDeletesClaimInUse | pkg/gc/pvc/pvc.go:126-200 | no run deletes a claim that a pod references |
| OrphanSafety.RunKeepsLabels | pkg/util/pvc/orphan.go:28-128 | in every run each mark was carried on since it was written |
| OrphanSafety.DeletedOnlyAfterRetention | pkg/gc/pvc/pvc.go:55-166 | a deleted claim carried its label without a break, since its commit for more than the retention less a second less the commit lag |
| OrphanSafety.OnlyCommitsRestamp | pkg/util/pvc/orphan.go:44-72 | only a committed mark changes a label that is there |
| OrphanSafety.MarkNeverMovesBack | pkg/util/pvc/orphan.go:44-72 | a stale mark can only move the timestamp later |
| OrphanWitnesses.EarliestIsReached | pkg/resource-handler/controller/shard/reconcile_deletion.go:194-214 | for every clock and commit lag some run deletes at the earliest moment that bound allows |
| OrphanWitnesses.RetentionHonouredIff | pkg/util/pvc/orphan.go:44-72 | every run keeps the label for the whole retention exactly when there is none, or the clock was a whole second and committed at once |
| OrphanWitnesses.LateCommitLeavesNoTime | pkg/resource-handler/controller/shard/reconcile_deletion.go:194-214 | a mark committed a retention late is deleted in the same moment |
| OrphanWitnesses.AlmostASecondEarly | pkg/util/pvc/orphan.go:44-49 | a mark cut just before a full second goes almost a second early |
| OrphanWitnesses.CachedReclaimLosesStorage | pkg/resource-handler/controller/shard/terminating_pvc.go:173-230 | a reclaim on a cached read can lose a claim in use, for any retention |
| OrphanLabels.MarkIsIdempotent | pkg/util/pvc/orphan.go:28-73 | marking again sends nothing and keeps the first timestamp |
| OrphanLabels.DisownDrops | pkg/util/pvc/orphan.go:50-62 | no reference of the owner is left, and nothing changes when there was none |
| OrphanLabels.NothingSentIff | pkg/util/pvc/orphan.go:44-64 | nothing is sent exactly when the label is there and no owner reference is to go |
| OrphanLabels.CopyKeptIff | pkg/util/pvc/orphan.go:39-72 | the copy is unchanged exactly when nothing is sent, so it differs after every refusal |
| OrphanLabels.RefusedMarkShows | pkg/util/pvc/orphan.go:39-72 | a copy for which it does |
| OrphanLabels.PersistentVolumeClaim.MarkOrphan | pkg/util/pvc/orphan.go:28-73 | the new copy, the patch sent, and success |
| OrphanLabels.PersistentVolumeClaim.ClearOrphan | pkg/util/pvc/orphan.go:102-128 | refuses a terminating claim, conditions the patch on the version read, and restores the copy when refused |
| OrphanSweep.EveryClaimCountedOnce | pkg/gc/pvc/pvc.go:55-166 | each handled claim is in exactly one counter, and deletes sent equal deletes answered |
| OrphanLabels.DisownIsFilter | pkg/util/pvc/orphan.go:50-62 | references are kept or dropped one by one, in order |
| OrphanLabels.MarkPatchMakesTheCopy | pkg/util/pvc/orphan.go:44-72 | on the claim as read the patch makes the very copy the caller is left with |
| OrphanLabels.MarkPatchIsUnconditional | pkg/util/pvc/orphan.go:44-72 | on a claim that changed since it is still taken, stamping it exactly when the copy read had no label |
| OrphanLabels.ClearPatchIsConditional | pkg/util/pvc/orphan.go:102-128 | the clear is taken exactly on the version read, and removes the label alone |
| OrphanCode.MarkingIsAStep | pkg/util/pvc/orphan.go:44-72 | a patch is sent exactly where the runs write, and stamps exactly where they stamp |
| OrphanCode.ClaimPodVolumes | pkg/resource-handler/controller/shard/terminating_pvc.go:173-199 | ready exactly when every claim is absent, or alive and unlabelled or cleared; else stops at the first that is not, with every clear up to it sent |
| OrphanCode.ReclaimReadiesIff | pkg/resource-handler/controller/shard/terminating_pvc.go:186-195 | a claim is readied exactly where that loop goes on, and its label is then gone |
| OrphanCode.ReadyIsHistory | pkg/resource-handler/controller/shard/terminating_pvc.go:173-199 | over every run a reconcile has readied exactly the claims it read absent, or read not terminating and unlabelled or still at the version read |
| OrphanCode.PodsOnlyOnReadiedClaims | pkg/resource-handler/controller/shard/terminating_pvc.go:165-199 | a pod is made only on such claims |
| OrphanCode.ReclaimInTimeKeepsStorage | pkg/resource-handler/controller/shard/terminating_pvc.go:165-199 | a run that reclaims a labelled, condemned claim, makes its pod, and whose collector then deletes nothing |
| OrphanCode.SweepIsAStep | pkg/gc/pvc/pvc.go:96-166 | the collector's code finds a claim expired exactly where the runs allow its delete |
| OrphanSweep.VerdictIff | pkg/gc/pvc/pvc.go:96-150 | each verdict's condition on label, cutoff, deletion mark and listed pods |
| OrphanSweep.CountersCount | pkg/gc/pvc/pvc.go:55-166 | each counter is the number of claims that meet its own condition on label, cutoff, pods and reply |
| OrphanSweep.SentIff | pkg/gc/pvc/pvc.go:96-166 | a delete is sent for exactly the claims old enough, not terminating and used by no listed pod, and for none in a dry run |
| OrphanSweep.IndexPods | pkg/gc/pvc/pvc.go:181-200 | a claim is in the index exactly when a pod uses it |
| OrphanSweep.ClaimUsers.PodUsing | pkg/gc/pvc/pvc.go:181-200 | the cached answer is the listing's answer, with one List call that answered for each namespace |
| OrphanSweep.ProcessPvc | pkg/gc/pvc/pvc.go:96-166 | the counters after one claim, and whether a delete was sent |
| OrphanSweep.Clean | pkg/gc/pvc/pvc.go:55-91 | the counters and deletes of a whole pass, up to the first undecidable claim |
| CellDeletion.VersionsKept | pkg/cluster-handler/controller/multigrescluster/reconcile_cells.go:95-192 | versions never repeat and every delete was judged on one that carried stamp and condition |
| CellDeletion.DrainedKept | pkg/resource-handler/controller/cell/cell_controller.go:363-410 | a ready, stamped Cell is drained |
| CellDeletion.RunKeepsInv | pkg/ownership/fields.go:123-134 | both invariants hold after every run |
| CellDeletion.CancelledDeleteNeverCommits | pkg/cluster-handler/controller/multigrescluster/reconcile_cells.go:95-192 | a delete decided before a committed cancel never commits |
| CellDeletion.OnlyDrainedCellsAreDeleted | pkg/cluster-handler/controller/multigrescluster/reconcile_cells.go:128-150 | every committed delete is of a stamped, ready and drained Cell |
| CellDeletion.BackwardCacheDeletesServingCell | pkg/resource-handler/controller/cell/cell_controller.go:57-128 | a cache that goes back in versions lets a serving Cell be deleted |
| CellDeletion.StaleAbsenceDeletesServingCell | pkg/resource-handler/controller/cell/cell_controller.go:363-447 | a stale absence of the TopoServer lets a serving Cell be deleted |
| CellPass.PlanIff | pkg/cluster-handler/controller/multigrescluster/reconcile_cells.go:95-150 | what is done about a Cell, by whether the spec names it and what was listed of stamp, condition and deletion |
| CellPass.WritesAreSteps | pkg/cluster-handler/controller/multigrescluster/reconcile_cells.go:95-192 | each write is taken exactly where the runs allow it, for a name the spec does not hold, or for a cancel does |
| CellPass.PassExtendsRun | pkg/cluster-handler/controller/multigrescluster/reconcile_cells.go:95-192 | after any run the pass's write extends the run, and a committed delete is of a drained Cell |
| CellPass.PruneCells | pkg/cluster-handler/controller/multigrescluster/reconcile_cells.go:93-154 | one action per listed Cell, where the pass stops, and exactly when a deletion is still pending |
| PromotionRuns.Runs | scripts/promote-runtime-images.js:134-196 | every reachable repository satisfies the invariant on commits, branch moves and runs |
| PromotionRuns.PromoAncestor | scripts/promote-runtime-images.js:182-188 | a promotion commit in another's history was published before that one was created |
| PromotionRuns.UpdateOnlyFromHeadRead | scripts/promote-runtime-images.js:150-194 | a non-forced update goes through only while the branch is at the head the run read |
| PromotionRuns.InvKept | scripts/promote-runtime-images.js:134-196 | every step keeps it; each move is strictly newer than main's record and the replaced head's, has matching defaults, and main's other files |
| PromotionRuns.RevisionsOnlyMoveForward | scripts/promote-runtime-images.js:153-159 | between deletions every head is strictly ahead of every earlier one |
| PromotionRuns.NoRollback | scripts/promote-runtime-images.js:134-196 | on an undeleted branch no interleaving rolls back or gives one revision two image sets |
| PromotionTrace.DecideIff | scripts/promote-runtime-images.js:135-168 | a run fails exactly when main or the branch is inconsistent or not followed by the record, settles exactly when one holds the images already, and else promotes |
| PromotionTrace.PromotesForward | scripts/promote-runtime-images.js:153-159 | a run that promotes is strictly newer than every record it read |
| PromotionTrace.EveryMoveIsEarned | scripts/promote-runtime-images.js:134-196 | every published record was given to a run whose revision was on upstream main, which found main and head sound and not holding the images, and saw main unmoved before it published |
| PromotionTrace.FirstMoveIsNotOlder | scripts/promote-runtime-images.js:137-149 | a move made while main had no record is not older than any default pinned there |
| PromotionTrace.UncontestedRunPromotes | scripts/promote-runtime-images.js:134-196 | from every reachable repository a run left alone whose conditions hold publishes its record |
| PromotionText.RewriteReadsBack | scripts/promote-runtime-images.js:51-60 | a rewritten declaration reads as the new image and is found as before |
| PromotionText.DeclaresOne | scripts/promote-runtime-images.js:35-41 | a line declares at most one default |
| PromotionText.FindOnly | scripts/promote-runtime-images.js:35-41 | finds the line exactly when exactly one line declares the name |
| PromotionText.OthersUndisturbed | scripts/promote-runtime-images.js:51-60 | rewriting one default moves no other |
| PromotionText.ReplaceDefaults | scripts/promote-runtime-images.js:43-60 | succeeds exactly when each default is declared once, then each reads its component's image, a changed line is as before up to the opening quote, and no other line changed |
| PromotionText.ComponentsWellNamed | scripts/promote-runtime-images.js:9-16 | the six names are distinct identifiers |
| Disruption.CommittedCohortContains | pkg/data-handler/posture/posture.go:220-238 | membership by identity key in the pooler's own committed rule |
| Disruption.PoolerReadiness | pkg/data-handler/posture/posture.go:180-218 | each reason's exact condition; ready exactly when initialised, accepting, eligible and a committed member |
| Disruption.Gather | pkg/data-handler/posture/disruption.go:173-190 | keeps every own answer by identity, or finds an imposter or a shared identity |
| Disruption.SortPrimaries | pkg/data-handler/posture/disruption.go:191-200 | exactly the running primaries, by routing |
| Disruption.Register | pkg/data-handler/posture/disruption.go:133-146 | each pod's last registration |
| Disruption.RegisteredLast | pkg/data-handler/posture/disruption.go:133-146 | a pod is registered exactly when a probe has its name, under the identity of the last that does |
| Disruption.Order | pkg/data-handler/posture/disruption.go:207-224 | succeeds exactly when every other primary is strictly behind, and names those |
| Disruption.Observe | pkg/data-handler/posture/disruption.go:113-225 | fails exactly on contradictory evidence, otherwise holds every answer and the one leader |
| DisruptionCheck.ReadyIff | pkg/data-handler/posture/posture.go:180-238 | ready is initialised, accepting, eligible, and in the cohort of its own committed rule by identity key |
| DisruptionCheck.RemainingIs | pkg/data-handler/posture/disruption.go:331-364 | what remains are the committed members other than the target |
| DisruptionCheck.JudgeMember | pkg/data-handler/posture/disruption.go:335-361 | passes exactly a member that is excused, or recovered and a standby or the leader |
| DisruptionCheck.Survivors | pkg/data-handler/posture/disruption.go:331-364 | passes exactly when every member is excused or recovered, and returns what remains |
| DisruptionCheck.FindUnlinked | pkg/data-handler/posture/disruption.go:383-398 | finds nothing exactly when every remaining member is connected |
| DisruptionCheck.Check | pkg/data-handler/posture/disruption.go:279-400 | safe exactly when all conditions hold; insufficient remainder exactly when only size is missing |
| DisruptionCheck.Serving | pkg/data-handler/posture/disruption.go:231-238 | serving exactly when the registered pooler answered ready |
| DisruptionCheck.OnlyTargetRunsBeside | pkg/data-handler/posture/disruption.go:292-298 | another running primary is the target, strictly behind |
| DisruptionCheck.MembersRecovered | pkg/data-handler/posture/disruption.go:335-351 | every member that is not excused answered, is ready, settled on the leader's rule and electable |
| DisruptionCheck.AcceptedIffJustified | pkg/data-handler/posture/disruption.go:279-400 | accepted exactly when justified by the answers alone: a sole serving leader, other primaries the target and behind, a settled target, recovered and standby members, connections, durability and recruitment |
| DisruptionCheck.CheckDisruption | pkg/data-handler/posture/disruption.go:85-99 | the whole preflight clears a removal exactly when the evidence is consistent and justifies it |
| DisruptionCheck.UnregisteredExcusesNobody | pkg/data-handler/posture/disruption.go:332-338 | without a registration every member must have recovered and all of them remain |
| DisruptionOutsider.ContradictionIff | pkg/data-handler/posture/disruption.go:173-200 | a harmless answer adds a contradiction exactly when another pooler answered under its identity |
| DisruptionOutsider.SameJustification | pkg/data-handler/posture/disruption.go:279-400 | the justification does not depend on it |
| DisruptionOutsider.OutsiderMattersOnlyAsTwin | pkg/data-handler/posture/disruption.go:60-78 | end to end, cleared exactly when cleared without the answer and it is no second one under the same identity |
| DisruptionOutsider.OutsiderDoesNotMatter | pkg/data-handler/posture/disruption.go:60-78 | without an answering twin any two harmless answers give the same verdict |
| DisruptionOutsider.SharedIdentityMatters | pkg/data-handler/posture/disruption.go:186-190 | a removal cleared while one of two registrations of an identity is silent, and refused once both answer |
| ConfigText.LinesOfJoin | pkg/postgresconfig/hash.go:101-105 | the lines of two joined texts are the lines of both |
| ConfigText.UnquoteQuote | pkg/postgresconfig/hash.go:88-94 | unquoting undoes quoting, for every value |
| ConfigText.StripInlineComment | pkg/postgresconfig/hash.go:125-142 | the scan keeps the text up to the first hash sign outside quotes |
| ConfigText.StripKeepsQuoted | pkg/postgresconfig/hash.go:125-142 | a quoted value survives whole |
| ConfigLines.TrimPadded | pkg/postgresconfig/hash.go:103-117 | trimming takes all white space at both ends and nothing else |
| ConfigLines.StripCuts | pkg/postgresconfig/hash.go:125-142 | the text is cut at the first hash sign with an even number of quotes before it, or nowhere |
| ConfigLines.LineReads | pkg/postgresconfig/hash.go:101-119 | however an assignment is laid out, it gives the lower-case name and the bare value, without padding and comment |
| ConfigLines.IdleIff | pkg/postgresconfig/hash.go:103-117 | a line assigns nothing exactly when it is blank, a comment, or has no name before its first equals sign |
| ConfigLines.BareValueIsItself | pkg/postgresconfig/hash.go:88-94 | an unquoted value stands for itself |
| ConfigParse.ReadLine | pkg/postgresconfig/hash.go:103-117 | what one line assigns |
| ConfigParse.ParseEffectiveConfig | pkg/postgresconfig/hash.go:101-119 | the last assignment of each name |
| ConfigParse.ParseOfJoin | pkg/postgresconfig/hash.go:101-119 | parsing at a line boundary is overlay |
| ConfigParse.IdleLine | pkg/postgresconfig/hash.go:43-47 | a line that assigns nothing may come and go |
| ConfigParse.DisjointSwap | pkg/postgresconfig/hash.go:43-47 | texts that set different names may change places |
| ConfigParse.EffectiveIsPlain | pkg/postgresconfig/hash.go:101-119 | parsed names hold no equals sign or newline, values no newline |
| ConfigParse.WrittenReadsBack | pkg/postgresconfig/render.go:126-135 | lines written one per name read back as the table |
| ConfigOrder.OneListing | pkg/postgresconfig/hash.go:147-152 | a set of names has one ascending listing, so the hash depends on the settings alone |
| ConfigOrder.SortKeys | pkg/postgresconfig/render.go:126-131 | that listing |
| ConfigRender.KeyLineReads | pkg/postgresconfig/render.go:132-143 | a rendered line assigns the quoted value to the lower-case name |
| ConfigRender.WriteSortedMap | pkg/postgresconfig/render.go:126-135 | the text so far followed by the sorted lines |
| ConfigRender.Render | pkg/postgresconfig/render.go:104-124 | reference, baseline and inline layers in this order |
| ConfigRender.TrimmedParses | pkg/postgresconfig/render.go:108-112 | dropping trailing newlines sets nothing |
| ConfigRender.RenderMeans | pkg/postgresconfig/render.go:97-143 | the file means reference overlaid by baseline overlaid by inline |
| ConfigHash.HashSettings | pkg/postgresconfig/hash.go:147-160 | the hash of the sorted pre-image |
| ConfigHash.PreImageReadsBack | pkg/postgresconfig/hash.go:147-160 | the pre-image can be decoded |
| ConfigHash.PreImageInjective | pkg/postgresconfig/hash.go:147-160 | different settings have different pre-images |
| ReloadGate.Partition | pkg/postgresconfig/hash.go:58-67 | every setting, unquoted, on exactly one side |
| ReloadGate.StampAndSplit | pkg/postgresconfig/hash.go:55-81 | the stamped file, both hashes and the expected settings |
| ReloadGate.StampedMeans | pkg/postgresconfig/reload_marker.go:31-37 | a stamped file means the file with the marker set to the hash |
| ReloadGate.MarkerNeedsRestart | pkg/postgresconfig/classify.go:45-57 | the marker is never among a file's own reload-safe settings |
| ReloadGate.CaseDoesNotMatter | pkg/postgresconfig/classify.go:45-57 | classification ignores letter case |
| ReloadGate.GateIsExact | pkg/postgresconfig/reload_marker.go:9-27 | a mounted file passes a newer file's gate exactly when their reload-safe settings are equal |
| ReloadGate.PassesItself | pkg/postgresconfig/hash.go:33-41 | a stamped file passes its own gate |
| ReloadGate.RemovalIsCaught | pkg/postgresconfig/reload_marker.go:9-22 | a pure removal is caught |
| ReloadGate.CosmeticEditMovesNothing | pkg/postgresconfig/hash.go:43-47 | comments and blank lines move neither hash |
| RestartGate.RestartPartIff | pkg/postgresconfig/classify.go:45-57 | a setting is on the restart side exactly when its name is dotted, unknown or without context, or its context is one of the four named |
| RestartGate.RestartHashIff | pkg/postgresconfig/hash.go:55-81 | two files have the same restart hash exactly when they agree on every dotted, unknown or contextless setting and on every one of those four contexts |
| RestartGate.ReloadableEditRestartsNothing | pkg/postgresconfig/classify.go:23-57 | an edit confined to known parameters of other contexts leaves the restart hash alone |
| Sizing.FormatReadsBack | pkg/postgresconfig/sizing.go:67-80 | a size string stands for the size rounded down to a kB |
| Sizing.WalBounds | pkg/postgresconfig/sizing.go:151-183 | which segment sizes are supported, and min_wal_size within its bounds |
| Sizing.WalFitsVolume | pkg/postgresconfig/sizing.go:151-183 | max_wal_size fits the volume exactly when the floor does |
| Sizing.Config.ApplyResourceSizing | pkg/postgresconfig/sizing.go:24-62 | every field after sizing, zero inputs leaving theirs alone |
| Sizing.SizingTwice | pkg/postgresconfig/sizing.go:24-62 | sizing twice is sizing once |
| Sizing.MemoryBudget | pkg/postgresconfig/sizing.go:40-48 | shared buffers and all sorts fit in memory exactly when the 64kB floor does |
| Sizing.CacheSizeExact | pkg/postgresconfig/sizing.go:42-42 | effective_cache_size is three quarters of memory exactly when tripling does not overflow |
| Sizing.MoreMemoryNeverLess | pkg/postgresconfig/sizing.go:86-126 | more memory never lowers connections or senders |
| SizedFields.SizedCpu | pkg/postgresconfig/sizing.go:25-32 | the worker settings by cores, never lowered but for the cap of four |
| SizedFields.ConnectionSteps | pkg/postgresconfig/sizing.go:86-112 | max_connections by bytes of memory |
| SizedFields.SenderSteps | pkg/postgresconfig/sizing.go:114-126 | max_wal_senders by bytes of memory |
| SizedFields.SizedMemory | pkg/postgresconfig/sizing.go:34-44 | the memory fields as written read back as their shares of memory |
| SizedFields.SizedWalBuffers | pkg/postgresconfig/sizing.go:44-44 | wal_buffers as written |
| SizedFields.WorkMemIsLargestShare | pkg/postgresconfig/sizing.go:46-48 | work_mem is the largest equal share of what the shared buffers leave, or 64kB |
| SizedFields.WrittenSizesFit | pkg/postgresconfig/sizing.go:40-48 | the fields as written fit in memory exactly when the 64kB floor does |
| SizedFields.SizedDisk | pkg/postgresconfig/sizing.go:51-60 | the four log sizes as written, by volume |
| SizedFields.WrittenWalBounds | pkg/postgresconfig/sizing.go:151-183 | as written they leave PostgreSQL its minimums and fit a volume of 64MB or more |
| SizedFields.NoMemoryNoChange | pkg/postgresconfig/sizing.go:22-34 | without memory to go by every memory field stays |
| SizedFields.NoDiskNoChange | pkg/postgresconfig/sizing.go:22-51 | without a disk to go by every log size stays |
| ShardMerge.OverlayPools | pkg/resolver/shard.go:205-211 | pools of both maps, merged where both have one |
| ShardMerge.MergeAbsorbs | pkg/resolver/shard.go:167-256 | a merged spec absorbs its base |
| ShardResolve.SortedCells | pkg/resolver/shard.go:78-84 | the filled-in cells are the cluster's as a multiset, in byte order |
| ShardFields.PoolsResolved | pkg/resolver/shard.go:86-91 | the pools are those some layer names, or one named `default` |
| ShardFields.PoolFieldResolved | pkg/resolver/shard.go:93-126 | every setting of a pool is the nearest one set, inline before override before template, else its default |
| ShardFields.InventedPoolResolved | pkg/resolver/shard.go:86-126 | the pool a shard without any is given has the orchestrator's cells, is `readWrite`, and has defaults |
| ShardFields.PoolCellsFilledIn | pkg/resolver/shard.go:97-103 | a pool that no layer gave cells has exactly the cluster's when asked for, else none |
| ShardFields.OrchFieldResolved | pkg/resolver/shard.go:60-84 | every setting, annotation and label of the orchestrator is the nearest one set, else its default |
| ShardFields.OrchCellsFilledIn | pkg/resolver/shard.go:75-84 | an orchestrator that no layer gave cells has exactly the cluster's when asked for, else none |
| ShardFields.ShardFieldResolved | pkg/resolver/shard.go:167-247 | the other settings of a shard, each the nearest one set |
| ShardResolve.FinishPool | pkg/resolver/shard.go:93-126 | cells, replicas, storage and resources of one pool after defaulting |
| ShardResolve.ResolveShard | pkg/resolver/shard.go:40-129 | the resolved shard |
| ShardResolve.InlineThenOverrideThenTemplate | pkg/resolver/shard.go:167-247 | each pool setting is the first one set |
| ShardResolve.EnoughPoolers | pkg/resolver/shard.go:105-122 | defaulted pools outside Lite mode have two poolers in all |
| ShardResolve.ExplicitStays | pkg/resolver/shard.go:344-357 | what is set is never defaulted away |
| ShardResolve.CompleteTwice | pkg/resolver/shard.go:61-126 | defaulting without cells and then with them is defaulting with them |
| ShardResolve.AdmissionPreservesMeaning | pkg/webhook/handlers/defaulter.go:199-258 | the stored shard resolves as the written one, exactly except for an inherited S3 without section |
| ShardResolve.AdmissionTwice | pkg/webhook/handlers/defaulter.go:199-258 | admitting again changes nothing, with the same exception |
| ShardResolve.AdmissionPreservesUnderRule | api/v1alpha1/common_types.go:236-240 | under the schema rule there is no exception |
| ShardResolve.StoredSpecStaysDynamicIff | pkg/webhook/handlers/defaulter.go:222-255 | under any other list of cells the stored shard resolves as the written one exactly unless a bare S3 backup is inherited or a dynamic replica count changed |
| ShardResolve.ReplicasAreFrozen | pkg/resolver/shard.go:105-122 | a shard admitted with one cell and resolved with two for which it does not |
| Admission.DefaultShard | pkg/webhook/handlers/defaulter.go:217-255 | one shard as stored |
| Admission.StoredAsResolved | pkg/webhook/handlers/defaulter.go:217-255 | a templated shard stays as written; any other is stored exactly as it resolves without cells filled in |
| Admission.StoredPoolIsSpelledOut | pkg/webhook/handlers/defaulter.go:223-255 | a stored pool has replicas, size and resources, and the cells that were written |
| Admission.OnlyShardsChange | pkg/webhook/handlers/defaulter.go:199-258 | databases and table groups are kept, and every shard keeps place, name, template and overrides |
| Admission.ClusterSpec.DefaultShards | pkg/webhook/handlers/defaulter.go:199-258 | every shard without a template is stored resolved, in place, and nothing else changes |
| Admission.AdmittedClusterMeansTheSame | pkg/cluster-handler/controller/multigrescluster/reconcile_databases.go:171-215 | every shard of the admitted cluster resolves as before |
| Admission.AdmittedTwice | pkg/webhook/handlers/defaulter.go:199-258 | admitting the cluster again changes nothing |
| Levels.ChildWins | api/v1alpha1/common_types.go:656-738 | a child of the same kind wins wherever it says anything, of another kind it replaces its parent |
| Levels.NearestLevelWins | api/v1alpha1/common_types.go:656-738 | over any number of levels the kind is the nearest set level's, and each setting the nearest said before a level of another kind |
| Levels.ResolvedBackup | pkg/resolver/shard.go:249-253 | then the defaults, and a filesystem backup when no level is set |
| Admission.BackupFollowsLevels | pkg/cluster-handler/controller/multigrescluster/reconcile_databases.go:180-215 | the same of the backup resolved over shard, table group, database and cluster |
| Levels.NearestPolicyWins | api/v1alpha1/common_types.go:616-644 | each half of a merged PVC policy is what the nearest level says that says anything |
| Levels.ClaimsGoByNearestPolicy | pkg/resource-handler/controller/shard/shard_controller.go:633-642 | a claim goes with its shard exactly when that is Delete, and on scaling also when no level says anything |
| Levels.UnsaidIsDeletedOnScaling | pkg/resource-handler/controller/shard/reconcile_pool_pods.go:1586-1597 | four silent levels keep the claim when the shard goes and delete it on scaling |
| LiteIdentity.ResolvedLiteIdentity | pkg/webhook/handlers/lite_identity.go:38-72 | the one pool and cell a Lite cluster resolves to, or an error |
| LiteIdentity.IdentityIff | pkg/webhook/handlers/lite_identity.go:38-72 | an identity names exactly the one database, table group and shard, the one resolved pool and its one cell |
| LiteIdentity.EqualIdentities | pkg/webhook/handlers/lite_identity.go:17-36 | equal identities have all five in common |
| LiteIdentity.CellIsTheClusters | pkg/webhook/handlers/lite_identity.go:54-69 | a pool that no layer gave cells is on the cluster's one cell |
| LiteIdentity.InventedIdentity | pkg/webhook/handlers/lite_identity.go:54-69 | a shard with no pools is the pool `default` on that cell |
| LiteIdentity.ValidateLiteIdentityUpdate | pkg/webhook/handlers/lite_identity.go:17-36 | passes exactly when both sides resolve to one identity |
| LiteIdentity.ValidateConsumers | pkg/webhook/handlers/lite_identity.go:76-112 | passes exactly when every living Lite consumer keeps its identity and validates |
| LiteIdentity.TextInjective | pkg/webhook/handlers/lite_identity.go:69-69 | the joined text tells slash-free identities apart |
| LiteIdentity.UsesResolvedShardTemplate | pkg/webhook/handlers/lite_identity.go:114-133 | yes exactly when some shard resolves through the template |
| LiteIdentity.FilterIsExact | pkg/resolver/shard.go:131-165 | the filter names exactly the template that resolution reads |
| LiteIdentity.DeletedFallback | pkg/webhook/handlers/validator.go:553-559 | deleting the fallback is the same as emptying it |
| LiteIdentity.DeletedUnused | pkg/webhook/handlers/validator.go:503-533 | deleting an unreferenced template changes no identity |
| LiteIdentity.StepKeeps | pkg/webhook/handlers/lite_identity.go:17-112 | each admitted write keeps the identity |
| LiteIdentity.IdentityNeverChanges | pkg/webhook/handlers/lite_identity.go:17-133 | over every admitted run a living Lite cluster keeps its identity |

## Left out

- Kubernetes, gRPC, TLS and etcd clients: reads, replies and parse results are parameters.
- The consensus and topology libraries: their code is not part of this model.
- PopulateClusterDefaults, cell, topology and core-template resolution: one-branch defaults.
- OwnerOf, HasPathPrefix, ConditionPath and SkipUnchanged of `pkg/ownership/ownership.go`: short lookups.
- The embedded postgresql.conf template and parameter catalogue: an arbitrary text and an arbitrary map.
- Posture evaluation and conditions, refusal messages, events and metrics: text and status plumbing.
- The concurrency limit and deadline of the Status RPCs: a probe that had no slot counts as a failed one.
- The pull request that promotion opens or repairs, and the record's format checks: no effect on the branch.
- ConfigText.LinesOfJoin: text is a sequence of Unicode characters, and invalid UTF-8 is not modelled.
- ConfigParse.ReadLine: letters outside ASCII keep their case.
- PromotionText.ReplaceDefaults: a declaration stands on one line, ended by a line feed; one broken over lines is not found.
- Disruption.Gather: the source collects answers and running primaries in one loop, the model in two.
- LiteIdentity.ValidateConsumers: the cluster validation it calls last is a parameter.
- LiteIdentity.IdentityNeverChanges: two admission requests decided at the same moment are not interleaved.
