# Durable protocols of the deployment supervisor

The supervisor replaces two products on one host (Baby Quirt and its gateway) under a signed
rollback guard, records every step in hash-chained ledgers, publishes commits to a remote, and
keeps artifacts in a content-addressed store. This project models those protocols in Dafny and
proves what they promise over every run, also when a process dies between any two durable steps,
and says exactly when a promise fails.

How the parts fit together:

- `Pointers`, `HostTree`, `Capture`, `Restore`, `Snapshot`, `HostRollback`: release links moved by
  single compare-and-swap renames, recovery snapshots as a pre-order entry list with payloads, and
  the staged rollback that uses both.
- `ControllerStore`, `Controller`, `GuardSafety`, `GuardTheorems`, `ManualRecovery`, `TornRecords`,
  `TornEndings`: the fixed controller's guards, markers and endings in a create-once store.
- `StateMachine`, `Ledger`, `LedgerTheorems`: the forty-state deployment ledger and its log.
- `Publication`, `PublicationPlans`, `PublicationTruth`, `Delivery`, `DeliveryTheorems`,
  `DeliveryInterleaving`, `PublishedDeliveries`: effects on a remote that other writers change, that
  loses responses and that delivers late.
- `DeliveryLedger`, `DeliveryLedgerTheorems`, `DeliveryPlan`: leases, gap-free events, paging, and the
  canonical plan.
- `Frame`, `CanonicalJson`, `JsonText`, `Artifacts`: codecs and the artifact store.
- `Base`, `Order`: shared types, strict orders, sorting and zero-padded names.

How the source is modelled. Objects whose methods change fields are classes; each method is proved
equal to a step function on values, and the theorems are about runs of those functions. A crash is a
number of durable effects after which the process dies ("fuel" or "cut"), so every state a crash can
leave is the result of some call. Hashes are injective constructors holding the document that was
hashed, signatures are ideal signers, tables are maps with unique keys, and transactions are atomic.

Where the code does not keep a promise, the code is modelled as it is, a run shows the failure, and the
exact condition is proved:

- the readback after a restore: `Snapshot.SnapshotRoundTrip`;
- retrying a cut activation: `Pointers.CutActivationMustBeRolledBack`;
- one restoration per deployment: `GuardTheorems.RestorationsAreCounted`, `GuardTheorems.RolledBackAtMostOnce`,
  `GuardTheorems.CrashInRestoreRepeatsIt`;
- manual recovery after a completed one: `ManualRecovery.RecoveryRestoresExactlyWhen`,
  `ManualRecovery.RestoredAgainAfterCompletion`;
- what "armed" means: `GuardTheorems.ArmedMeansActiveUnlessEnded`, `GuardTheorems.ArmedThoughDisarmed`;
- a record torn by a crash: `TornRecords.StrandedExactlyWhenTorn`, `TornEndings.StatusFailsExactlyWhenTorn`;
- what an intent binds: `LedgerTheorems.IntentsAgree`;
- a push follows the recorded plan: `PublicationPlans.PlansAreKeptExactlyWhenAppliesAgree`,
  `PublicationPlans.SwappedPlanIsPublished`;
- "verified" and "completed" are final: `Publication.VerifiedIsFinalExactlyWhenSettled`,
  `PublicationPlans.VerifiedBesideAnEarlyApply`, `DeliveryInterleaving.CompletedIsFinalExactlyWhen`,
  `DeliveryInterleaving.CompletedBesideALaggingPublisher`;
- bytes of a finalized artifact: `Artifacts.FinalizedBytesAreFixed`, `Artifacts.PartialObjectIsTrusted`,
  `Artifacts.ResendIsRightExactlyWhen`, `Artifacts.LastChunkIsRightExactlyWhen`,
  `Artifacts.FinalizableAfterCutExactlyWhen`;
- frames beside an error, identifiers, and `__proto__`: `Frame.FramesIgnoreChunkingExactlyWhen`,
  `Frame.ErrorsLoseFramesOfTheirChunk`, `Frame.OnlyCanonicalIdentifiersArrive`, `JsonText.ProtoMemberIsLost`.

`dafny verify dfyconfig.toml` checks the whole project.

## Model

| member | source | states |
|---|---|---|
| Pointers.LinkHost.CompareAndSwap | src/install/symlinks.ts:57-80 | the link changes only when it still shows the expected target; otherwise the call is refused with the links as they were, and a cut before the rename changes nothing |
| Pointers.LinkHost.CompareAndRemove | src/install/symlinks.ts:82-93 | the link goes only when it shows the expected target |
| Pointers.LinkHost.SwapReleases | src/install/symlinks.ts:96-116 | moves `previous` to the old current release, then `current` to the candidate, fenced by the expected pair, cut after any link step |
| Pointers.LinkHost.RollbackReleases | src/install/symlinks.ts:118-136 | the unfenced or fenced exchange of `current` and `previous`, `current` first, cut after any link step |
| Pointers.LinkHost.ActivateCandidate | src/deployment/activation.ts:21-109 | guard readback, acceptance of the legacy layout for Baby, known-good and candidate checks, then the fenced swap |
| Pointers.LinkHost.RestoreProductPointers | src/controller/filesystem-host.ts:187-205 | each link of a product is put back only from the values the fence allows, at most two link steps |
| Pointers.LinkHost.RestoreAllPointers | src/controller/filesystem-host.ts:171-205 | the fence over both products, then both products' links |
| Pointers.RunsStayTame | src/deployment/activation.ts:38-74 | under any calls cut anywhere a product only ever shows one of three pointer pairs |
| Pointers.EveryCrashStaysInFence | src/controller/filesystem-host.ts:171-185 | from the signed expected pointers, any sequence of activations and rollbacks, each cut off after any link step, stays inside the rollback fence and never loses `current` |
| Pointers.RestorePairIsExact | src/controller/filesystem-host.ts:187-205 | one product's restoration finishes exactly when `current` is the expected release or the candidate, ends at the signed pair, and leaves the other product alone |
| Pointers.RollbackCompletesExactlyInsideTheFence | src/controller/filesystem-host.ts:171-205 | an uncut restoration finishes if and only if the links are inside the fence, then ends exactly at the signed pointers; otherwise it changes nothing |
| Pointers.OneRestorationRecoversEveryCrash | src/controller/filesystem-host.ts:171-205 | from every state that cut calls can leave, one uncut restoration ends at the signed expected pointers |
| Pointers.CutActivationMustBeRolledBack | src/deployment/activation.ts:38-74 | an activation cut after its first link step is refused on retry if and only if that step changed `previous` |
| Pointers.ActivationPublishes | src/deployment/activation.ts:38-74 | an uncut activation succeeds if and only if guard, acceptance, candidate and pointers are as expected; then the candidate is current, the known-good release is previous, and the other product is untouched |
| Pointers.RollbackUndoesSwap | src/install/symlinks.ts:96-136 | rolling back a swap brings the old current release back, and rolling back twice restores both links |
| Pointers.CutRollbackForgetsCurrent | src/install/symlinks.ts:118-136 | the unfenced rollback cut after its first step names the old current release nowhere, unless it was also the previous one |
| HostTree.PreorderDescribes | src/deployment/snapshot.ts:374-438 | the entry list describes every node of a subtree exactly once, root first, each entry after the directory entry of its parent |
| HostTree.SamePreorder | src/deployment/snapshot.ts:587-592 | hosts that show the same nodes below a path give the same entry list |
| Capture.SnapshotWriter.AddPayload | src/deployment/snapshot.ts:594-598 | payloads are stored under the digest of their bytes |
| Capture.SnapshotWriter.CapturePath | src/deployment/snapshot.ts:374-438 | the recursion that pushes to the shared list succeeds exactly when every path has no two dots in a row and every node can be captured within the bounds, and then has appended the pre-order entries and all their payloads |
| Capture.SnapshotWriter.CaptureTargets | src/deployment/snapshot.ts:250-308 | all target roots in their fixed order, the bound on entries and the bound on payload bytes together give the capture of the host |
| Capture.NoteAllCovers | src/deployment/snapshot.ts:594-598 | every payload an entry refers to is stored, under its own digest |
| Capture.WalkMeetsCapturable | src/deployment/snapshot.ts:374-438 | a capture that succeeds met only plain paths and regular nodes within the size bounds |
| Capture.CapturableWalks | src/deployment/snapshot.ts:374-438 | such nodes within the entry bound are all a capture needs |
| Restore.MkdirAllEffect | src/deployment/snapshot.ts:499-533 | creating missing parents adds only directories on the way and changes no existing node |
| Restore.Restorer.RestoreOneMetadata | src/deployment/snapshot.ts:534-544 | owner, mode and extended metadata are set from the recorded payloads |
| Restore.Restorer.RestoreOneEntry | src/deployment/snapshot.ts:499-533 | one entry is recreated by kind, directories first with a private mode |
| Restore.Restorer.RestoreOneTarget | src/deployment/snapshot.ts:499-543 | remove the target, recreate its entries in list order, then settle directory metadata deepest first |
| Restore.EntriesRebuild | src/deployment/snapshot.ts:499-523 | recreating the entries in list order always finds each parent, and rebuilds exactly the captured nodes |
| Restore.DirectoriesSettle | src/deployment/snapshot.ts:523-532 | the second pass gives every listed directory its recorded metadata and changes nothing else |
| Restore.TargetComesBack | src/deployment/snapshot.ts:499-543 | whatever became of a target, as long as directories lead to it, restoring succeeds and gives back exactly the captured subtree, with nothing else touched but created parents |
| Snapshot.FixedTargetsApart | src/deployment/snapshot.ts:37-55 | no fixed target lies at or below another |
| Snapshot.SnapshotManager.RestoreNonPointerTargets | src/deployment/snapshot.ts:337-372 | the whole call: refusals, grouping of entries by target, restore in fixed order, readback |
| Snapshot.SnapshotManager.InventoryAndCompare | src/deployment/snapshot.ts:587-592 | the readback walks the selection in the order asked for and compares with the recorded entries |
| Snapshot.CaptureGives | src/deployment/snapshot.ts:250-308 | a successful capture holds the walks of all targets, all payloads they need, and only capturable nodes |
| Snapshot.GroupIsWalk | src/deployment/snapshot.ts:337-372 | grouping the flat list by target returns each target's own walk |
| Snapshot.ExpectedIsWalks | src/deployment/snapshot.ts:337-372 | the entries kept for the readback are the walks of the selected targets in fixed order |
| Snapshot.RootsOfConcat | src/deployment/snapshot.ts:337-372 | a list of walks determines the list of its roots |
| Snapshot.ReadbackVerdict | src/deployment/snapshot.ts:337-372 | on a restored host the readback accepts if and only if the selection was written in the fixed order without repeats |
| Snapshot.SnapshotRoundTrip | src/deployment/snapshot.ts:337-372 | capture, arbitrary changes, restore gives back kinds, bytes, link targets, low nine mode bits, owners and ACL and xattr payloads of every selected target, no extra path, every other path untouched except created parents; the readback accepts if and only if the selection was in fixed order without repeats |
| HostRollback.FixedListInOrder | src/deployment/snapshot.ts:57-79 | the lists the rollback uses are in the fixed order and hold no pointer target, so their readback accepts |
| HostRollback.FilesystemGuardHost.RestoreSnapshotStaged | src/controller/filesystem-host.ts:94-162 | the stages in order and the stage a failing rollback reports |
| HostRollback.Compose | src/controller/filesystem-host.ts:94-162 | restoring disjoint targets one list after the other restores all of them, with one frame |
| HostRollback.TreesComeBack | src/controller/filesystem-host.ts:94-162 | with pointers anywhere inside the rollback fence and directories leading to the targets, no stage that puts trees or pointers back can fail |
| HostRollback.StagedRollback | src/controller/filesystem-host.ts:94-162 | such a rollback fails only where a service command fails; once the candidate was stopped, pointers are as signed and all snapshot trees are back |
| HostRollback.RollbackRecoversTheHost | src/controller/filesystem-host.ts:94-162 | after any cut-off activations and restorations and any damage to the targets, a rollback whose service commands succeed completes with the snapshot's trees and the signed pointers |
| Order.PadOrder | src/controller/storage.ts:239-246 | zero-padded names sort as the numbers they stand for |
| Order.ParseInvertsPad | src/controller/storage.ts:239-246 | a padded name reads back as its number |
| Order.SortCanonical | src/deployment/database.ts:931-950 | under a strict order two lists sort alike if and only if one permutes the other |
| Controller.FixedDeploymentController.ActiveGuardIds | src/controller/storage.ts:275-288 | the scan finds exactly the guards with neither ending |
| Controller.FixedDeploymentController.LatestGeneration | src/controller/storage.ts:263-273 | the scan finds the greatest recorded generation, or zero |
| Controller.FixedDeploymentController.StepAll | src/controller/storage.ts:59-88 | the durable writes of an action one by one; a create-once record with different content stops it |
| Controller.FixedDeploymentController.ArmGuard | src/controller/controller.ts:47-99 | arming with its refusals, retry reply, and the writes guard, generation, evidence |
| Controller.FixedDeploymentController.CommitMarker | src/controller/controller.ts:101-117 | storing a success marker that matches the guard and is not from the future |
| Controller.FixedDeploymentController.DisarmGuard | src/controller/controller.ts:119-146 | disarming needs a valid marker and no rollback; repeated it replies the stored ending |
| Controller.FixedDeploymentController.EvaluateGuard | src/controller/controller.ts:148-185 | stale, ended, marked, pending and overdue guards, in that order; only the overdue one restores the host |
| Controller.FixedDeploymentController.RecoverManually | src/controller/controller.ts:195-229 | manual recovery only of a recorded failed rollback with the guard's snapshot |
| GuardSafety.StoredRecordsVerify | src/controller/controller.ts:231-269 | in a sound store every stored record passes its signature, machine and binding checks, and the ending found is the recorded one |
| GuardSafety.EvaluateCases | src/controller/controller.ts:148-185 | which of the five evaluations a sound store gives |
| GuardSafety.RunKeeps | src/controller/controller.ts:47-229 | every run of actions, each cut between any two of its durable steps, keeps: valid records, at most one active guard, no newer generation than the active one, valid markers, endings sealed to their guard, attempts only after a failed rollback |
| GuardSafety.ReachedSound | src/controller/storage.ts:198-261 | so every reachable store is sound |
| GuardTheorems.RunGrows | src/controller/storage.ts:59-88 | no run removes or changes a guard, generation, marker, ending or attempt |
| GuardTheorems.EndingsAreExclusiveAndFinal | src/controller/storage.ts:230-261 | a deployment is never both disarmed and rolled back, and its ending never changes |
| GuardTheorems.ActiveGuardIsNewest | src/controller/controller.ts:47-99 | at most one guard is active and its generation is at least every recorded one, so the stale branch never catches it |
| GuardTheorems.OverdueEvaluation | src/controller/controller.ts:148-185 | what an overdue evaluation restores, records and replies at every cut |
| GuardTheorems.NoStrandedGuard | src/controller/controller.ts:119-185 | in every store reached with crashes between records, one uncut evaluation ends an overdue guard without a marker, and one uncut disarm ends a guard with one |
| GuardTheorems.StatusIsTruthful | src/controller/controller.ts:187-193 | the read-only status shows an ending if and only if that ending is recorded, and a marker if and only if one is stored on an active guard |
| GuardTheorems.WhoRestores | src/controller/controller.ts:148-229 | only an overdue evaluation of an active unmarked guard and an accepted manual recovery touch the host |
| GuardTheorems.RestorationsAreCounted | src/controller/controller.ts:148-185 | over every run from a sound store the restorations of one deployment by evaluation are exactly the calls that died between the restoration and its record, plus one if the run recorded the rollback, whatever happens to other deployments |
| GuardTheorems.RolledBackAtMostOnce | src/controller/controller.ts:148-185 | from the empty store evaluation restores a deployment at most once if and only if the evaluations of it that died between the restoration and its record, and the recorded rollback, are together one at most |
| GuardTheorems.CrashInRestoreRepeatsIt | src/controller/controller.ts:148-185 | a crash in that gap always makes the next overdue evaluation restore once more |
| GuardTheorems.NoRollbackAfterMarkerOrEnding | src/controller/controller.ts:148-185 | once a marker or an ending is stored, no run of actions makes evaluation restore |
| GuardTheorems.LatestAttemptIsListedLast | src/controller/storage.ts:248-261 | with times apart, the name order of attempts is their time order, so the ending read is the latest attempt |
| GuardTheorems.NoRestorationAfterCompletion | src/controller/controller.ts:195-229 | while the clock strictly increases, nothing restores a deployment after a completed restoration |
| GuardTheorems.NoRestorationAfterCompletionFromStart | src/controller/controller.ts:195-229 | the same from the empty store |
| GuardTheorems.EqualTimesLetDigestsDecide | src/controller/storage.ts:248-261 | of a failed and a completed attempt at one time, the one with the greater digest text is the one that is read |
| ManualRecovery.NamesCompare | src/controller/storage.ts:239-246 | attempt files sort by time and, at one time, by the text of the digest |
| ManualRecovery.EndingFailedExactlyWhen | src/controller/storage.ts:248-261 | for any number of attempts, the ending read is a failed one if and only if some failed attempt lies after every completed one |
| ManualRecovery.RecoveryRestoresExactlyWhen | src/controller/controller.ts:195-229 | in every sound store a manual recovery restores the host if and only if snapshot and reason fit, the rollback failed, and there is no attempt or some failed attempt lies after every completed one; otherwise it changes nothing |
| ManualRecovery.RecoveryAfterCompletion | src/controller/controller.ts:195-229 | after a completed attempt another recovery adds one restoration if and only if some failed attempt lies after every completed one |
| ManualRecovery.RestoredAgainAfterCompletion | src/controller/controller.ts:195-229 | the run from the empty store: armed, failed rollback, failed recovery, completed recovery; the next recovery restores a fourth time if and only if the completed attempt is the earlier one, by time or by digest at one time |
| TornRecords.StuckForever | src/controller/storage.ts:59-97 | a guard whose guard or marker file does not parse stays active through every run, whole or torn, and is never restored by evaluation |
| TornRecords.StuckExcludesOthers | src/controller/controller.ts:47-99 | while it is stuck no other deployment can be armed |
| TornRecords.DiedReadable | src/controller/storage.ts:59-88 | after any whole run and one call that died inside a step, any other active guard reads as in a sound store |
| TornRecords.StrandedExactlyWhenTorn | src/controller/storage.ts:59-97 | an overdue active guard is stranded for good if and only if its guard file or its marker file is the torn one; otherwise one uncut action ends it |
| TornEndings.StatusFailsExactlyWhenTorn | src/controller/controller.ts:187-193 | after any whole run and one torn write, the status of a deployment fails, and fails for good, if and only if the torn file is its guard, the record read as its ending (last attempt, else disarmed, else rollback), or without an ending its marker; otherwise the status is that of the whole records |
| TornEndings.BlockedForever | src/controller/storage.ts:230-261 | no later run, with crashes between or inside records, replaces such a torn file or puts another record before it |
| TornEndings.BlockedActionsFail | src/controller/controller.ts:119-229 | while it lies there no evaluation, disarm or manual recovery of the deployment gets through, except that an evaluation of an outdated guard reports it as stale |
| TornEndings.TornAttemptShowsOrNot | src/controller/storage.ts:248-261 | a torn recovery attempt is read as the ending, or the attempt listed last before still is |
| GuardTheorems.ArmedMeansActiveUnlessEnded | src/controller/controller.ts:47-99 | an "armed" reply means an active guard if and only if the deployment had not ended; an ended one is armed again only when its generation was never recorded |
| GuardTheorems.RetryNeverRecordsGeneration | src/controller/storage.ts:198-212 | after a crash between the two writes of a guard, the retry replies "armed" and the generation record stays missing |
| GuardTheorems.SmallerGenerationArmed | src/controller/controller.ts:72-79 | with no active guard a new guard is armed if and only if its generation exceeds the recorded ones, so an unrecorded greater generation does not count |
| GuardTheorems.ArmedThoughDisarmed | src/controller/controller.ts:47-99 | the run that ends with an "armed" reply for a disarmed deployment |
| StateMachine.BuildTransitionPairs | src/deployment/state-machine.ts:197-253 | the loops build exactly the declared transition relation |
| StateMachine.AcceptedFits | src/deployment/state-machine.ts:305-434 | every accepted transition leads to a state that fits the new guard flag, and arms only on entry into `guard_armed` |
| StateMachine.SucceededOnlyFromDisarming | src/deployment/state-machine.ts:197-253 | the only way into `succeeded` is from `guard_disarming` |
| Ledger.DeploymentDatabase.CreateNew | src/deployment/database.ts:601-686 | creation, idempotent by key, with frozen sources, refused for a used id or generation |
| Ledger.DeploymentDatabase.AddFrozenProduct | src/deployment/database.ts:778-849 | a product must match its frozen source and never changes |
| Ledger.DeploymentDatabase.AppendRecordedEvidence | src/deployment/database.ts:859-917 | evidence is written once per kind and digest |
| Ledger.DeploymentDatabase.FindAttempt | src/deployment/database.ts:952-964 | the scan returns the recorded transition of a deployment under a key |
| Ledger.DeploymentDatabase.Transit | src/deployment/database.ts:931-1130 | replay or refusal by key, then every fence in its order, then row and log change together |
| LedgerTheorems.RowsRefineLogs | src/deployment/database.ts:1043-1130 | in every reachable ledger each row is the fold of its accepted transitions |
| LedgerTheorems.LogIsGapFree | src/deployment/database.ts:992-1042 | sequences are 1..n, each transition starts where the last one ended, nothing follows a terminal state, the row shows the end |
| LedgerTheorems.GuardDisciplineEverywhere | src/deployment/state-machine.ts:63-70 | a post-arm state implies an armed guard, an armed guard excludes every pre-arm state but `guard_arming`, and an armed terminal state is `manual_recovery_required` |
| LedgerTheorems.SuccessProvenance | src/deployment/state-machine.ts:366-431 | a succeeded deployment entered `guard_armed`, its last two transitions carry one marker digest, and that marker is evidence in the ledger |
| LedgerTheorems.TamperEvident | src/deployment/database.ts:1043-1100 | equal record digests imply the same creation request and the same intents all along both logs |
| LedgerTheorems.LedgersAgree | src/deployment/database.ts:1043-1100 | the same between any two reachable ledgers |
| LedgerTheorems.IntentsAgree | src/deployment/database.ts:931-950 | two inputs have one intent if and only if they agree on every field but idempotency key, signing key and signature, and on the evidence up to order |
| LedgerTheorems.ReplayAtAnyDistance | src/deployment/database.ts:952-991 | resubmitting a recorded key after any later operations returns the first record and changes nothing, and a changed intent is refused |
| LedgerTheorems.OneCommitPerSequence | src/deployment/database.ts:992-1008 | of attempts racing on one expected sequence at most one is ever recorded |
| Publication.PublicationRegistry.Reserve | src/github/safe-publication.ts:391-427 | a run is made once per mutation, returned for the same fingerprint whatever plan comes with it, and refused for another fingerprint |
| Publication.PublicationRegistry.Change | src/github/safe-publication.ts:440-482 | an update keeps absent fields and has no condition on the current state |
| Publication.PublicationRegistry.Observe | src/github/safe-publication.ts:484-520 | an observation is kept under the digest of its contents, next to all earlier ones |
| Publication.PublicationRegistry.Log | src/github/safe-publication.ts:528-558 | an event is appended behind the earlier events of its mutation |
| Publication.PublicationRegistry.CompletedResult | src/github/safe-publication.ts:1032-1054 | a verified run returns its pair of observations only when it holds both |
| Publication.RunKeeps | src/github/safe-publication.ts:705-1030 | every interleaving of applies with any fingerprints, crashes, late or lost pushes and other writers keeps the registry sound and only grows it; where all applies agree with the recorded plans, everything is also of those plans |
| Publication.PushesAreLeasedAndRecorded | src/github/safe-publication.ts:785-830 | over every run a push moves the ref exactly from the object it expects to its target, after its run and its attempt with that lease were recorded |
| Publication.IntentPrecedesPush | src/github/safe-publication.ts:759-800 | over every run a push on the wire already has its durable run and attempt |
| Publication.VerifiedIsPaired | src/github/safe-publication.ts:926-1030 | over every run a verified run holds a Git and an API observation of one commit and tree at one ref |
| Publication.PushesFollowThePlan | src/github/safe-publication.ts:785-830 | where all applies agree with the recorded plans, a push replaces exactly the recorded plan's old object by its new one |
| Publication.VerifiedIsWitnessed | src/github/safe-publication.ts:926-1030 | where all applies agree, a verified run holds a Git and an API observation of the planned commit and tree |
| Publication.SettledIsAbsorbing | src/github/safe-publication.ts:926-1030 | a verified run no early apply is working on stays verified whatever follows |
| Publication.EarlyApplyUnverifies | src/github/safe-publication.ts:1211-1259 | from any earlier point a live apply can leave the verified state |
| Publication.VerifiedIsFinalExactlyWhenSettled | src/github/safe-publication.ts:440-482 | "verified" is final if and only if no live apply of the same mutation is at an early point |
| Publication.VerifiedIsFinalUnderExclusion | src/github/safe-publication.ts:759-783 | with one live apply per mutation at a time, a verified run is final and keeps a pair of observations of one commit, the planned one where all applies agree |
| PublicationTruth.VerifiedCommitReachedTheRemote | src/github/safe-publication.ts:926-1030 | over every run, some move of the remote put exactly the observed commit of a verified run at the observed ref |
| PublicationTruth.VerifiedPlanReachedTheRemote | src/github/safe-publication.ts:926-1030 | where all applies agree, that is the planned commit at the planned ref |
| PublicationPlans.PlansAreKeptExactlyWhenAppliesAgree | src/github/safe-publication.ts:391-406 | for every run: all its applies agree with the recorded plans if and only if at no point, and in no way to go on from there without a further apply, a push or a verification is not the recorded plan's |
| PublicationPlans.DisagreementShows | src/github/safe-publication.ts:776-800 | any one apply that rejoins a run with a plan that disagrees can go on to verify or send what the recorded plan does not allow |
| PublicationPlans.SwappedPlanIsPublished | src/github/safe-publication.ts:391-406 | the run in which a reused mutation and fingerprint with another plan is pushed and verified under the first plan's record |
| PublicationPlans.NamingFingerprintsAgree | src/github/provider-delivery.ts:1129-1134 | a caller whose fingerprints determine the plan always agrees |
| PublicationPlans.VerifiedBesideAnEarlyApply | src/github/safe-publication.ts:440-482 | two applies from the start reach a verified run that is not settled and can lose the state |
| Delivery.DeliveryPublisher.ReserveRun | src/github/provider-delivery.ts:321-358 | a run is made once, returned for the same key and request, refused otherwise |
| Delivery.DeliveryPublisher.MoveRun | src/github/provider-delivery.ts:372-413 | an update keeps the result unless it brings one |
| Delivery.DeliveryPublisher.UpsertPullRequest | src/github/provider-delivery.ts:486-591 | replay, reconcile after a lost answer, or attempt and check the readback |
| Delivery.DeliveryPublisher.AwaitWorkflow | src/github/provider-delivery.ts:761-832 | the polling loop, its bounds, identity checks and required jobs |
| Delivery.DeliveryPublisher.CaptureAll | src/github/provider-delivery.ts:879-960 | the wanted artifacts one by one with digest, size and source checks |
| Delivery.DeliveryPublisher.RunStages | src/github/provider-delivery.ts:1112-1298 | the missing parts in turn, each recorded before the next; the push is a report of its commit and tree |
| Delivery.DeliveryPublisher.PublishDelivery | src/github/provider-delivery.ts:1006-1330 | reserve, resume from the recorded parts, complete or record the failure |
| DeliveryTheorems.UpsertKeeps | src/github/provider-delivery.ts:486-618 | however it ends, a pull request run stays sound, and a returned pull request matches the request's head commit and tree |
| DeliveryTheorems.WaitKeeps | src/github/provider-delivery.ts:761-832 | a returned workflow has the requested identity and head, and succeeded |
| DeliveryTheorems.CaptureKeeps | src/github/provider-delivery.ts:879-960 | returned artifacts all come from the requested commit, tree and workflow |
| DeliveryTheorems.StagesOk | src/github/provider-delivery.ts:1112-1298 | from any coherent recorded parts the stages only add coherent parts, cut anywhere |
| DeliveryTheorems.CompletedDeliveriesAreCoherent | src/github/provider-delivery.ts:1112-1298 | over any calls, crashes and resumptions, a completed delivery's push, pull request head, workflow head and every artifact are of one commit, and of one tree where it is recorded |
| DeliveryTheorems.RecordedPartsStay | src/github/provider-delivery.ts:1006-1110 | a recorded part never changes, and an ended delivery never changes at all |
| DeliveryTheorems.VerifiedChildrenAreReplayed | src/github/provider-delivery.ts:879-905 | a verified child run is replayed from its stored result without any update |
| DeliveryInterleaving.TurnsKeep | src/github/provider-delivery.ts:1006-1330 | publishers of one delivery taking turns stage by stage, with crashes and other calls, keep every run sound and every publisher's parts coherent |
| DeliveryInterleaving.CompletedStaysCoherent | src/github/provider-delivery.ts:1112-1298 | also then a completed delivery has all four parts, of one commit and one tree |
| DeliveryInterleaving.CompletedIsFinalExactlyWhen | src/github/provider-delivery.ts:1340-1357 | "completed" is final if and only if no live publisher of the delivery lacks a part |
| DeliveryInterleaving.CompletedBesideALaggingPublisher | src/github/provider-delivery.ts:1340-1357 | two publishers from the start reach a completed delivery that is not final |
| PublishedDeliveries.DeliveredCommitStoodOnTheRemote | src/github/provider-delivery.ts:1112-1170 | with publication runs, crashes, late pushes, other writers and delivery calls in any interleaving, the commit a delivery recorded as pushed was put at its destination ref by some move of the remote, and pull request, workflow and artifacts of a completed delivery are of that commit |
| PublishedDeliveries.RunKeeps | src/github/provider-delivery.ts:1112-1170 | every reply of an apply shows the planned commit of its run, which the remote held, and every recorded push of a delivery comes from such a reply |
| PublishedDeliveries.PublishPush | src/github/provider-delivery.ts:1112-1298 | a publish, however it ends, changes the recorded push only to the report of its own push, when that report shows the planned commit |
| Artifacts.ArtifactManager.Capture | src/artifacts/manager.ts:268-292 | hash, copy into place, record |
| Artifacts.ArtifactManager.CopyObject | src/artifacts/manager.ts:208-266 | the copy loop buffer by buffer; an object already there is taken as it is |
| Artifacts.ArtifactManager.Begin | src/artifacts/manager.ts:294-325 | an empty upload file, then its record |
| Artifacts.ArtifactManager.Upload | src/artifacts/manager.ts:327-365 | the offset must be the acknowledged size; the bytes go to the file, then the record; with the finalize flag the file is then finalized as it is, against what the record expects |
| Artifacts.ArtifactManager.FinalizeUpload | src/artifacts/manager.ts:367-423 | size and digest checks, then the move to the digest's path, then the record |
| Artifacts.ArtifactManager.AbortUpload | src/artifacts/manager.ts:425-443 | only an uploading artifact is aborted |
| Artifacts.ArtifactManager.DownloadAll | src/artifacts/manager.ts:445-483 | a reader with any positive limits gets exactly the artifact's bytes |
| Artifacts.ObjectsRightExactlyWhen | src/artifacts/manager.ts:208-266 | after any run an object holds the bytes of its digest if and only if it did before or was made by a copy that was not cut |
| Artifacts.FinalizedBytesAreFixed | src/artifacts/manager.ts:208-423 | over any calls, each cut anywhere, finalized records and their bytes never change again, also when records share an object; the bytes match the recorded hash if and only if no capture died while copying them |
| Artifacts.CaptureIsRightExactlyWhen | src/artifacts/manager.ts:268-292 | a capture yields the source's bytes if and only if no other bytes lay at their digest |
| Artifacts.PartialObjectIsTrusted | src/artifacts/manager.ts:208-219 | a capture cut after opening its object makes the next capture of the same bytes finalize an empty object |
| Artifacts.CutCopyLeavesPrefix | src/artifacts/manager.ts:208-266 | a copy that dies leaves a proper prefix under the full digest and touches nothing else |
| Artifacts.UploadsInterleave | src/artifacts/manager.ts:327-365 | chunks at any offset and cut anywhere, between any calls on other artifacts, leave the acknowledged bytes and behind them what dead chunks left |
| Artifacts.UploadRoundTrip | src/artifacts/manager.ts:294-423 | an upload fed any chunks, refused, cut or acknowledged, finalizes under the digest of its acknowledged bytes if and only if no dead chunk left bytes behind them, and then downloads as those bytes unless a capture of them was cut |
| Artifacts.FinalizableAfterCutExactlyWhen | src/artifacts/manager.ts:367-423 | an upload whose finalization died can still be finalized by some later run if and only if it did not die between the move of the file and the record; after that cut the retry finds no file, aborting works, and the bytes lie in the object store |
| Artifacts.LostForGood | src/artifacts/manager.ts:367-450 | an upload that was aborted, or whose file is gone while its record says uploading, is never finalized, whatever operations follow |
| Artifacts.ResendIsRightExactlyWhen | src/artifacts/manager.ts:327-423 | after a chunk died between file and record, another chunk at the same offset leads to an upload that finalizes if and only if it is at least as long |
| Artifacts.LastChunkIsRightExactlyWhen | src/artifacts/manager.ts:343-365 | a finalizing chunk is accepted exactly when the file meets what the record expects; without expectations the artifact is what was acknowledged and sent if and only if the chunk covers the bytes a dead chunk left |
| Artifacts.CutChunkCanBeSentAgain | src/artifacts/manager.ts:327-365 | the same chunk sent again after it died between file and record loses nothing |
| DeliveryLedger.DeliveryPersistence.Create | src/delivery/persistence.ts:529-603 | a run is made once per plan and generation |
| DeliveryLedger.DeliveryPersistence.Transit | src/delivery/persistence.ts:701-895 | replay or refusal by key, then the fences, then run and event change together |
| DeliveryLedger.DeliveryPersistence.AddEvidence | src/delivery/persistence.ts:1087-1150 | evidence is appended once with the next sequence |
| DeliveryLedger.DeliveryPersistence.AcquireLease | src/delivery/persistence.ts:1179-1275 | a lease is taken when none is active, or over one at or past its expiry, and the run then refers to it |
| DeliveryLedger.DeliveryPersistence.RenewLease | src/delivery/persistence.ts:1277-1339 | only the holder of the active lease renews it, heartbeat and expiry never move back, and a lease past its expiry that nobody took over may still be renewed |
| DeliveryLedger.DeliveryPersistence.ReleaseLease | src/delivery/persistence.ts:1341-1397 | only the holder releases, and the run no longer refers to it |
| DeliveryLedgerTheorems.LeasesAlwaysAgree | src/delivery/persistence.ts:1536-1567 | in every reachable ledger at most one lease per delivery is active, the run refers to it exactly when it exists, and its heartbeat lies before its expiry |
| DeliveryLedgerTheorems.TakeoverOnlyAfterExpiry | src/delivery/persistence.ts:1179-1275 | an active lease ends only by its holder's release or a takeover at or after its expiry, which never moves back |
| DeliveryLedgerTheorems.OffsetsHaveNoGap | src/delivery/persistence.ts:771-812 | event offsets are exactly 0 to one below the state sequence |
| DeliveryLedgerTheorems.ReplayAtAnyDistance | src/delivery/persistence.ts:723-742 | a recorded key replays unchanged after anything that followed, and a changed intent is refused |
| DeliveryLedgerTheorems.OneEventPerSequence | src/delivery/persistence.ts:743-770 | of changes racing on one sequence at most one is recorded |
| DeliveryLedgerTheorems.PageIsExact | src/delivery/persistence.ts:922-946 | a page holds exactly the kept rows from its offset up to the offset it names next, and is empty only when none is left |
| DeliveryLedgerTheorems.EmptyPageMeansAll | src/delivery/persistence.ts:922-946 | whoever gets an empty page has all kept rows behind it |
| DeliveryLedgerTheorems.ReadersMissNothing | src/delivery/persistence.ts:922-946 | a reader following the next offset over any growing log, with any limits of at least one, sees exactly the kept rows, once and in order |
| DeliveryLedgerTheorems.EventReaderMissesNothing | src/delivery/persistence.ts:922-946 | a reader of the event list, with any operations between its pages, is refused if and only if the delivery is unknown or a limit lies outside 1 to 200; otherwise it has seen exactly the events below its offset, and all of them once a page is empty |
| DeliveryLedgerTheorems.EvidenceReaderMissesNothing | src/delivery/persistence.ts:1152-1177 | the same for the evidence list, whole or of one kind, although its offsets skip other kinds |
| DeliveryPlan.AcceptableUpToOrder | src/delivery/plan.ts:81-94 | whether a plan is accepted does not depend on the order of its set fields |
| DeliveryPlan.ArrangedDecides | src/delivery/plan.ts:310-368 | canonical bodies are equal if and only if the plans agree up to the order of their set fields |
| DeliveryPlan.DigestDecides | src/delivery/plan.ts:310-368 | the same for plan digests |
| DeliveryPlan.PermutationInvariant | src/delivery/plan.ts:156-182 | permuting set fields changes neither acceptance nor the canonical plan |
| DeliveryPlan.CanonicalIsFixed | src/delivery/persistence.ts:410-420 | canonicalizing is idempotent without the digest, so the ledger accepts every canonical plan |
| Frame.EncodeFrame | src/protocol/frame.ts:45-64 | header fields in their places over zeros, an undecodable identifier left zero, out-of-range fields refused |
| Frame.FrameReader.Feed | src/protocol/frame.ts:95-118 | the loop over the buffer returns the decoded frames, or throws and keeps what it had not consumed |
| Frame.UuidRoundTrip | src/protocol/frame.ts:82-89 | the text form of sixteen bytes reads back as those bytes (section 4 of RFC 9562) |
| Frame.OnlyCanonicalIdentifiersArrive | src/protocol/frame.ts:45-89 | an identifier arrives as it was sent if and only if it is the text form of some sixteen bytes |
| Frame.DecodeSplits | src/protocol/frame.ts:95-118 | decoding a buffer and then the rest with more bytes is decoding the whole |
| Frame.ChunkingIrrelevant | src/protocol/frame.ts:95-118 | whether and which error occurs never depends on chunking; without one, neither do frames and residue; with one, the delivered frames are a prefix |
| Frame.ErrorsLoseFramesOfTheirChunk | src/protocol/frame.ts:95-118 | frames that complete in the chunk that shows an error are lost, and a chunk border before the error delivers them |
| Frame.FramesIgnoreChunkingExactlyWhen | src/protocol/frame.ts:95-118 | the frames delivered for a stream are the same for every chunking if and only if the stream meets no error, or no frame completes before the error |
| Frame.ResidueIsBounded | src/protocol/frame.ts:95-118 | without an error the residue is shorter than header plus maximum payload |
| Frame.FramesRoundTrip | src/protocol/frame.ts:45-118 | any frames within the bound, split into any chunks, arrive exactly and in order with nothing left over |
| Frame.MagicIsReadModulo128 | src/protocol/frame.ts:66-80 | ASCII decoding drops the top bit: the magic is accepted if and only if its four bytes agree with it modulo 128, and the frames and the error are then those of the buffer with the magic itself |
| CanonicalJson.SortMembers | src/crypto/canonical.ts:9-22 | the assignment loop yields the members in the enumeration order of a JavaScript object |
| CanonicalJson.SortKeys | src/crypto/canonical.ts:9-22 | the recursion computes the canonical value |
| CanonicalJson.ArrangeCanonical | src/crypto/canonical.ts:9-22 | two objects arrange alike if and only if they have the same members besides `__proto__` |
| CanonicalJson.CanonicalDecides | src/crypto/canonical.ts:9-22 | two values have one canonical form if and only if they are the same JSON value up to key order and `__proto__` members |
| JsonText.CanonicalJsonOf | src/crypto/canonical.ts:5-7 | sort, then print |
| JsonText.ParseInvertsPrint | src/crypto/canonical.ts:5-7 | a parser for the grammar of sections 2 to 7 of RFC 8259, restricted to integers and without white space, reads every printed value back |
| JsonText.PrintInjective | src/crypto/canonical.ts:5-7 | equal texts if and only if equal values, member order included |
| JsonText.CanonicalTextDecides | src/crypto/canonical.ts:5-22 | equal canonical texts if and only if the same JSON value |
| JsonText.CanonicalTextParses | src/crypto/canonical.ts:5-22 | the canonical text parses to the canonical value with nothing left |
| JsonText.ProtoMemberIsLost | src/crypto/canonical.ts:9-22 | the one exception: adding a `__proto__` member does not change the text |

## Left out

- Snapshot.SnapshotRoundTrip: does not model symbolic links in place of the directories above a target, file system special cases of ACL and mode interplay, or symlink modes; modes are compared as numbers, not as octal text.
- Restore.Restorer.RestoreOneEntry: a file is written in one step; its temporary `.restore-<pid>` name, created exclusively and renamed, is not modelled, nor a crash between the two.
- HostRollback.StagedRollback: service commands (candidate stop, runtime directories, Caddy reload, starts and checks) are taken to leave the snapshot trees and the pointers alone.
- Pointers.LinkHost.CompareAndSwap: a pointer path is a link or absent; a regular file there, the temporary link of the rename and its fsync are not modelled.
- Controller.FixedDeploymentController.StepAll: here a create-once write happens whole or not at all; crashes inside one are the subject of TornRecords.
- GuardSafety.RunKeeps: likewise, cuts fall between records.
- GuardTheorems.NoStrandedGuard: likewise; the guards that a torn record strands are given by TornRecords.StrandedExactlyWhenTorn.
- TornRecords.StrandedExactlyWhenTorn: the exact statement is for the first torn record after any whole run, while what is stranded stays so through any later tears; a cut that loses only the final newline leaves a record that still parses and is not modelled.
- GuardTheorems.StatusIsTruthful: every record is whole; with a torn one the status is as TornEndings.StatusFailsExactlyWhenTorn says.
- TornEndings.StatusFailsExactlyWhenTorn: the exact statement is for the first torn record after any whole run, as in TornRecords.
- GuardTheorems.NoRestorationAfterCompletion: times are milliseconds since 1970 that fit sixteen digits; earlier, negative times in attempt names are not modelled.
- LedgerTheorems.IntentsAgree: the collation `localeCompare` is a parameter, taken to order the evidence strictly.
- DeliveryPlan.DigestDecides: the collation `localeCompare` is a parameter, taken to be a strict total order on the allowed strings.
- JsonText.ParseInvertsPrint: numbers are integers in plain decimal; fractions, exponents, minus zero and magnitudes of 10^21 and more are not modelled.
- Artifacts.FinalizedBytesAreFixed: a source that changes while it is hashed or copied and a saved manifest that is cut inside are not modelled; fresh identifiers stand for random ones.
- Artifacts.ArtifactManager.CopyObject: a crash falls between whole buffers, never inside the write of one.
- Artifacts.UploadRoundTrip: its finalization is not cut; Artifacts.FinalizableAfterCutExactlyWhen is about one that is.
- DeliveryTheorems.CompletedDeliveriesAreCoherent: provider calls run one after the other, each cut anywhere; publishers that interleave are the subject of DeliveryInterleaving, stage by stage and not inside a stage.
- DeliveryTheorems.RecordedPartsStay: likewise for calls one after the other; with publishers that interleave an ended delivery can still change, exactly as DeliveryInterleaving.CompletedIsFinalExactlyWhen says.
- Delivery.DeliveryPublisher.RunStages: here the push child is a report of what was planned and read back; that reports come from publication runs is the subject of PublishedDeliveries.
- PublishedDeliveries.DeliveredCommitStoodOnTheRemote: the steps of an apply lie before the delivery call that uses its reply; publishers that interleave inside a delivery are the subject of DeliveryInterleaving.
- Publication.VerifiedIsWitnessed: holds where all applies agree with the recorded plans, which the registry does not check; a plan identifier is taken to name one registered plan for good. The publication is modelled as a step machine on values beside the registry class, because live applies interleave; helper processes, credentials and the preview that makes a plan are left out.
- Cryptography, SQLite, Git, SSH, systemd, Caddy and file descriptors: ideal hashes and signers, maps, and parameters for what commands report.
- Lock acquisition of the controller store (`withGlobalLock`): each controller action is one sequence of durable steps; the stale-lock takeover depends on process identity and timing.
- Loading, signing and persisting snapshot files, and create-once names of generation records, which are modelled by their number.
- Regular expressions and field-by-field validation of records, plans and payloads, beyond the rules the proofs need.
- The intent tables (`reserveIntent`, `completeIntent`), child jobs, artifact references and record digests of delivery runs, and the cancellation and rollback columns of transition rules: easy members only.
- File names are compared as sequences of characters; the difference between code point and UTF-16 order is not modelled.
- Rate limits, authorization and log capture of the provider, redaction, command lines, the server, jobs, terminals, repository truth and packaging.
