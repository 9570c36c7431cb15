# SecondBox: a verified model of its deployment protocol

SecondBox installs, updates, repairs and removes a single-host deployment with
`secondbox-deploy`. Each operation is a journaled state machine over a durable plan
and receipt, guarded by a lock file, and may be cut off between any two effects. This
project models that protocol, and beside it the pieces of the repository with the
hardest self-contained logic, and proves what they promise.

## How the protocol is modelled

- `InstallReceipt` holds the receipt and its changes as values: twelve install stages,
  nine update stages, the resource ledger and the status, with the checks a save makes.
- `Protocol` is a machine of guarded events over the durable pair and the world: the
  lock, what a commit left beside the pair, the control plane, the database, active
  Sandboxes, published files, volumes and Runner identities. An effect that fails may have
  taken any part of its effect. A save that fails leaves the old or the new receipt.
  Deaths release the lock.
- `ProtocolSafety` proves that every event keeps one invariant; `ProtocolTheorems`
  proves what holds over whole runs, for any number of processes and any interleaving.
- `Deployment.Host` is the host as one process sees it. Each method first lets other
  processes take any steps, then performs one event whose guard is the method's
  precondition. The outcome is arbitrary and may be the caller's death. The host carries
  the run so far, and a caller can mark a moment of it: whatever happens later continues
  every marked moment.
- `UpdateCommand`, `InstallerCommands` and `PurgeCommand` follow the commands' code
  statement by statement. An effect issued out of turn, or a stage recorded without its
  effects, does not meet its guard. Two ghost counters state convergence: `faults` counts
  effects that did not report success, `saves` counts successful saves. A command that met
  no fault is a crash-free one whose dependencies all succeeded. A refusal that follows
  from what is on disk is no fault. Each whole command returns the moments at which it
  looked, in order and each ending in its own event (the opening, the helper's
  verification, the lock), and states from these alone when it goes through.
- `OperationStore` models saving a plan and a receipt together, and recovering them, down
  to single file operations. `Refinement` proves that however these calls end they are
  commit and recovery events of the protocol, and that `RunnerInitOrValidate` is its
  enrollment.
- `RestingRun` and `PendingRun` construct complete runs from every accepted plan: an
  installation, an uninstall, and an update up to its commit. So the states the theorems
  speak about are reachable.

## Results worth knowing

- Once an update's boundary is durable, no control plane runs and no Sandbox is active
  until the target's Compose `up` is issued, and the source is never restarted.
- An unfinished update implies a succeeded installation. Purge never checks for an
  update; the invariant that protects it is kept by all commands together.
- A purge that met no fault leaves the operation purged, whatever other processes did
  between its lock windows.
- A fence that an update raised stands, when the command returns, only with the boundary
  durable, unless the durable receipt could not be read: otherwise the source's restart was
  issued (`RunUpdate`, `CrossBoundary`).
- Install stages are given back in exactly two ways: Compose recovery returns to the
  stage before Compose, and host apply takes back its own stage after its save took hold
  although it reported a failure. Both happen (`ShrinksExactly`, `RollbackReachable`).
- A commit cut off by one death can block the deployment's other commands for good. A
  process that dies in `SaveOperation` after its marker is whole leaves staged files, and
  `update --resume`, `install --resume`, Compose recovery and purge start with a read-only
  opening that refuses them. The refusal names resume as the way out, but no sequence of
  these commands begun after the death ever recovers the commit (`PendingForever`,
  `PendingReachable`). Ordinary uninstall, `support` and tenancy bootstrap start with
  recovery and leave nothing pending (`Uninstall`, `Support`, `BootstrapTenancy`).
- `SaveOperation` is not always recoverable. A process that dies while the marker is being
  written leaves a torn marker, and every later recovery fails although both old documents
  are intact. No other single death makes recovery impossible, and no recovery ever yields a
  mixed pair (`Store.SaveOperation`, `TornMarkerBlocksRecovery`, `LostForever`).
- A resume of an uninstalled deployment that records a failed check leaves a state no
  modelled command can leave. It is reachable from every accepted plan, and in every run it
  is entered in exactly this way (`StuckReachable`, `StuckExactlyWhen`, `StuckForever`).
- A published Runner identity is accepted later exactly while its certificate and its
  authority are within their lifetimes (`AcceptedExactlyWhen`).
- The JSON locator is maximal for every refusal exactly when document and type leave every
  part of an object as some field's only candidate, which holds unless two keys fold to one
  field name that is not itself a key (`MaximalExactly`, `PathEndIsMaximal`,
  `FoldedKeysHideRefusal`).
- A listed action is recovered from every resource exactly when no earlier action
  overlaps it; lists without colons never overlap (`ActionRecoveredExactly`).

Modelling choices: digests are injective, so comparing digests is comparing contents.
Releases are ordered by a number. Calls to Docker, sudo, systemd, PostgreSQL and HTTP are
effects that succeed, fail or are cut off. Clocks, confirmations and generated keys and
identifiers are parameters. A command's private helper processes share its process
identity. The receipt code is internal/install, which the commands call.

## Model

| member | source | states |
|---|---|---|
| `InstallReceipt.ValidateUpdateHistory` | internal/install/codec.go:548-581 | the loop accepts exactly the histories in which every update starts from the release activated before it, every succeeded one activates the next with its own identity and time, and the plan names the last |
| `InstallReceipt.WalkHistory` | internal/install/codec.go:552-566 | the walk accepts exactly the update lists whose sources and targets are the consecutive releases of the activation history, and whose identities and completion times are the ones recorded there |
| `ProtocolSafety.StageCompleted` | internal/install/receipt.go:21-46 | from any coherent receipt the next stage with its resources is never refused, is appended, and only the last stage yields Succeeded |
| `ProtocolSafety.RetryPrepared` | internal/install/receipt.go:106-138 | Compose retry keeps exactly the seven stages before Compose, drops exactly the resources the replay records again, and leaves a coherent receipt failed at Compose |
| `ProtocolSafety.StatusChanged` | internal/install/receipt.go:48-103 | uninstall, restore, recovery, failure and purge changes keep every completed stage, every update and the coherence of status and ledger |
| `ProtocolSafety.InstallOpCoherent` | cmd/secondbox-deploy/installer_resume.go:153-453 | every receipt change of the installer commands keeps plan and receipt coherent and never touches an update record |
| `ProtocolSafety.InstallOpIdle` | cmd/secondbox-deploy/installer_resume.go:1208-1388 | no installation change is applied while an update is unfinished, including the purge changes that never look for one |
| `ProtocolSafety.UpdateOpCoherent` | internal/install/update.go:9-78 | beginning, advancing and failing an update keep plan and receipt coherent |
| `ProtocolSafety.UpdateOpAdvances` | internal/install/update.go:37-78 | an update change appends at most the next stage, keeps the target and leaves everything but the update records alone |
| `ProtocolSafety.FinishedCoherent` | cmd/secondbox-deploy/update_command.go:576-586 | completing the last stage and activating at any time yields a coherent pair without an unfinished update whose plan names the target |
| `ProtocolSafety.SourceChangeKeepsWorld` | cmd/secondbox-deploy/update_command.go:475-529 | stopping, restarting or taking down the source, wholly or in part, keeps the world invariant |
| `ProtocolSafety.FileChangeKeepsWorld` | cmd/secondbox-deploy/update_command.go:514-526 | activating artifacts and publishing the manifest, wholly or in part, keeps the world invariant |
| `ProtocolSafety.UpKeepsWorld` | cmd/secondbox-deploy/update_command.go:530-542 | Compose `up`, wholly or in part, keeps the world invariant wherever a command may issue it |
| `ProtocolSafety.StepKeepsInv` | cmd/secondbox-deploy/update_command.go:411-589 | every event of every process, failed or not, keeps the protocol invariant |
| `ProtocolTheorems.RunInv` | cmd/secondbox-deploy/installer_resume.go:153-453 | the invariant holds in every state of every run |
| `ProtocolTheorems.UpIssuedMeans` | cmd/secondbox-deploy/update_command.go:530-542 | the bookkeeping bit is set exactly when the run contains a Compose `up` since the boundary became durable |
| `ProtocolTheorems.ActivationFence` | cmd/secondbox-deploy/update_command.go:454-542 | with the boundary durable the control plane is stopped and no Sandbox active until the target's Compose `up`; afterwards only the target's control plane serves |
| `ProtocolTheorems.ForwardOnly` | cmd/secondbox-deploy/update_command.go:474-529 | source down, artifact activation and manifest publication happen only behind a durable boundary, a source restart only before one |
| `ProtocolTheorems.JournalGrows` | internal/install/update.go:37-111 | over any run no update record disappears, changes its releases or loses a stage |
| `ProtocolTheorems.SourceNeverRestarted` | cmd/secondbox-deploy/update_command.go:478-503 | after an update's boundary was ever durable no process restarts its source control plane |
| `ProtocolTheorems.ReleaseIdentity` | cmd/secondbox-deploy/update_command.go:576-586 | the durable plan names the source exactly while the update is unfinished and the target exactly once it is recorded complete |
| `ProtocolTheorems.ActiveUpdateMeansSucceeded` | cmd/secondbox-deploy/update_command.go:242-287 | every reachable state with an unfinished update has status Succeeded and all install stages |
| `ProtocolTheorems.NoPurgeDuringUpdate` | cmd/secondbox-deploy/installer_resume.go:1254-1388 | no purge change and no volume removal happens during an update |
| `ProtocolTheorems.SavesAreValid` | internal/install/codec.go:417-546 | no receipt a command saves is refused by the receipt's own validation |
| `ProtocolTheorems.CommitsAreValid` | internal/install/codec.go:417-581 | no pair a command commits is refused by the receipt's validation or by the history check |
| `ProtocolTheorems.PurgeIsFinal` | cmd/secondbox-deploy/installer_resume.go:183-201 | once Purging is durable the status stays Purging or Purged, recorded removals only grow, no process issues Compose `prepare` or `up`, and removed volumes never return |
| `ProtocolTheorems.PurgedIsComplete` | internal/install/receipt.go:193-208 | a run recorded as Purged has no volumes, no running containers and every resource but the operation directory recorded as removed |
| `ProtocolTheorems.VolumesGoOnlyWhilePurging` | cmd/secondbox-deploy/installer_resume.go:1312-1342 | volumes disappear only by a removal issued while Purging is durable, although it runs outside the lock |
| `ProtocolTheorems.HostAppliedStep` | internal/install/host_apply.go:273-289 | once the host-apply stage is durable and its saver is past rolling back, no step of any process takes it away |
| `ProtocolTheorems.LadderOrder` | cmd/secondbox-deploy/installer_resume.go:274-452 | the durable stages are an initial part of the sequence, and a stage's effect is issued only with every earlier stage durable |
| `ProtocolTheorems.StagesGrow` | cmd/secondbox-deploy/installer_resume.go:274-452 | over any run without Compose recovery and host-apply rollback the durable stages never shrink |
| `ProtocolTheorems.RecoveryGivesBack` | internal/install/receipt.go:129-137 | Compose recovery gives back exactly the stages from Compose startup on |
| `ProtocolTheorems.ShrinksExactly` | internal/install/host_apply.go:273-290 | in every run the durable stages shrink exactly when Compose recovery gives back stages from Compose startup on, or a host apply takes back its own stage; the latter only after that stage's save took hold although it reported a failure |
| `ProtocolTheorems.StagesAreEarned` | cmd/secondbox-deploy/installer_resume.go:318-452 | a stage is recorded only by a process that itself completed the stage's effects under the same lock since its last save |
| `ProtocolTheorems.OneIdentity` | cmd/secondbox-deploy/installer_resume.go:318-336 | over any run at most one Runner identity is published, it never changes, and a recorded enrollment has one |
| `ProtocolTheorems.ActsOnVerifiedPlan` | cmd/secondbox-deploy/update_command.go:208-241 | an update or Compose recovery acts only while the durable plan equals the one its own privileged verification last saw |
| `ProtocolTheorems.PendingForever` | internal/install/accepted_linux.go:88-140 | a pending commit is never repaired by commands that start with the read-only opening: over every run in which only they recover, files and pair stay as they are |
| `ProtocolTheorems.RepairPossible` | internal/install/accepted_linux.go:144-155 | a command that starts with recovery can repair a pending commit, unless it is lost |
| `ProtocolTheorems.LostForever` | internal/install/accepted_linux.go:297-310 | a lost commit stays lost over every run, whoever tries to recover it |
| `Deployment.OtherStep` | internal/install/lock_linux.go:18-81 | while one process holds the lock, a step of another can only change active Sandboxes and, during a purge, stop containers and remove volumes |
| `Deployment.Host.Interfere` | internal/install/lock_linux.go:18-81 | any number of steps of other processes keeps the run valid, the lock holder's durable pair and deeds, and the facts that survive without the lock |
| `Deployment.Host.AcquireLock` | internal/install/lock_linux.go:18-64 | the lock is exclusive and its success reply is exactly holding it |
| `Deployment.Host.OpenOperation` | internal/install/accepted_linux.go:88-140 | without a fault the read-only opening succeeds exactly when no commit is pending, and then returns the durable pair |
| `Deployment.Host.ReadReadOnly` | internal/install/accepted_linux.go:88-96 | under the lock the read-only reader succeeds without a fault exactly when no commit is pending; every failed read is counted |
| `Deployment.Host.RecoverOperation` | internal/install/accepted_linux.go:144-155 | without a fault recovery under the lock fails exactly on a lost commit; it never changes the durable pair, and success leaves nothing pending |
| `Deployment.Host.ReadHostApply` | internal/install/accepted_linux.go:37-48 | the host-apply reader ignores a pending commit and succeeds without a fault exactly on the accepted plan at a readable stage |
| `Deployment.Host.SaveReceipt` | internal/install/accepted_linux.go:255-265 | success makes the proposed receipt durable, failure leaves the old or the new one, and death releases the lock |
| `Deployment.Host.SaveOperation` | internal/install/accepted_linux.go:183-253 | plan and receipt change together: on success the new pair with nothing left beside it, otherwise the old or the new pair, possibly with a pending or lost commit |
| `Deployment.Host.Do` | cmd/secondbox-deploy/update_command.go:475-529 | an effect is issued under its guard, succeeds exactly without a fault, and leaves pair and files alone; a successful stop raises this process's fence and an issued restart lowers it |
| `Deployment.Host.HostVerify` | cmd/secondbox-deploy/installer_resume.go:94-125 | success means the privileged helper saw exactly this plan on disk; without a fault it succeeds exactly then |
| `UpdateCommand.Complete` | cmd/secondbox-deploy/update_command.go:426-431 | one saved stage, with the same update one stage further; a failed save leaves it at either stage |
| `UpdateCommand.Fail` | cmd/secondbox-deploy/update_command.go:420-425 | journaling a failure never succeeds the command and never changes the progress |
| `UpdateCommand.StageAssets` | cmd/secondbox-deploy/update_command.go:441-453 | succeeds exactly without a fault, after staging release and files, with one save |
| `UpdateCommand.CheckSource` | cmd/secondbox-deploy/update_command.go:454-473 | without a fault the source is validated, its Compose identity taken and its Sandboxes found at rest; no exit moves the update |
| `UpdateCommand.CrossBoundary` | cmd/secondbox-deploy/update_command.go:454-504 | succeeds exactly without a fault with the boundary durable; unless a durable read failed, the run's last successful stop under this lock is followed by an issued restart exactly when the boundary is not durable |
| `UpdateCommand.JournalBoundary` | cmd/secondbox-deploy/update_command.go:591-606 | after an ambiguous save the durable receipt decides: unless it cannot be read, the restart is issued when the boundary is not durable, and never when it is |
| `UpdateCommand.PublishTarget` | cmd/secondbox-deploy/update_command.go:505-529 | source down, activation, staging and publication in this order, then one saved stage; the boundary stays durable on every exit |
| `UpdateCommand.StartTarget` | cmd/secondbox-deploy/update_command.go:530-542 | prepare, then up, then one saved stage, exactly without a fault |
| `UpdateCommand.ActivateTarget` | cmd/secondbox-deploy/update_command.go:559-587 | after smoke, validation and clean-up of the staging area the target becomes the plan's release and the update is recorded complete in one save, exactly without a fault and with a clock later than the last activation |
| `UpdateCommand.ContinueUpdate` | cmd/secondbox-deploy/update_command.go:411-589 | finishes the update exactly without a fault and with an advanced clock, with nine minus completed saves; unless a durable read failed, a fence it raised stands at the end only with the boundary durable, and one that led to the boundary was never lowered |
| `UpdateCommand.BeginUpdateLocked` | cmd/secondbox-deploy/update_command.go:264-287 | without a fault a new update completes exactly when the installation is complete, none is unfinished, the target is newer and differs, its identity is fresh and the clock advanced; one that may not begin changes nothing durable |
| `UpdateCommand.ResumeLocked` | cmd/secondbox-deploy/update_command.go:242-263 | without a fault resume succeeds exactly when an update is recorded and the clock lets an unfinished one activate; with a completed one it changes nothing |
| `UpdateCommand.UpdateLocked` | cmd/secondbox-deploy/update_command.go:224-288 | a plan that changed since its verification is refused without any change of the pair; without a fault it succeeds exactly when the operation is recoverable, still the verified one and the update acceptable, with exactly the missing saves; a resume of a completed update changes nothing; a raised fence stands only with the boundary durable |
| `UpdateCommand.VerifyFirst` | cmd/secondbox-deploy/update_command.go:208-223 | the first lock window and the privileged verification, as two moments of the run in order: without a fault they are reached by their events and succeed exactly when the operation is recoverable and its plan is still the one on disk when the helper looks |
| `UpdateCommand.UpdateVerified` | cmd/secondbox-deploy/update_command.go:224-289 | the second lock window as two moments of the run: without a fault the lock is taken and it succeeds exactly when the state under it is admitted |
| `UpdateCommand.RunUpdate` | cmd/secondbox-deploy/update_command.go:163-289 | the whole command over moments of one run, each ending in its own event: without a fault it succeeds exactly when nothing was pending at its opening, the plan it first read is the one the helper verified and the one under the second lock, and the update is acceptable there; success means the target is active with exactly the missing saves, and a further resume changes nothing; a fence it raised stands only with the boundary durable unless a durable read failed |
| `InstallerCommands.MarkFailure` | cmd/secondbox-deploy/installer_resume.go:512-514 | the command fails whether or not recording the failure succeeds |
| `InstallerCommands.Record` | cmd/secondbox-deploy/installer_resume.go:318-336 | appends resources and stage in one save |
| `InstallerCommands.PublishResource` | internal/install/release_materialize.go:90-228 | write-ahead publication: intent, publication and record in this order, each missing save exactly once, and a resource already intended or recorded is adopted |
| `InstallerCommands.MaterializeRelease` | internal/install/release_materialize.go:37-228 | exactly without a fault both stages are recorded, artifacts and both binaries before theirs, with exactly the missing intents and records as saves |
| `InstallerCommands.StartCompose` | cmd/secondbox-deploy/installer_resume.go:337-373 | prepare, up and one saved stage, exactly without a fault |
| `InstallerCommands.Qualify` | cmd/secondbox-deploy/installer_resume.go:374-452 | login, readiness, tenancy if planned and smoke complete the installation exactly without a fault, one save each |
| `InstallerCommands.Climb` | cmd/secondbox-deploy/installer_resume.go:274-452 | from any durable stage the ladder completes the installation exactly without a fault, one save for every missing stage |
| `InstallerCommands.RestoreDeployment` | cmd/secondbox-deploy/installer_resume.go:239-259 | restarting an uninstalled deployment records success only after prepare, up and readiness, and takes the Compose project off the removed list |
| `InstallerCommands.ReproveReady` | cmd/secondbox-deploy/installer_resume.go:260-273 | a complete installation is proved ready; a failed one is recovered by one save |
| `InstallerCommands.FinishUninstalling` | cmd/secondbox-deploy/installer_resume.go:205-224 | a journaled uninstall takes Compose down and then records it with the project removed |
| `InstallerCommands.ContinueInstall` | cmd/secondbox-deploy/installer_resume.go:239-452 | exactly without a fault the installation ends complete, with exactly the missing saves |
| `InstallerCommands.ResumeInstallLocked` | cmd/secondbox-deploy/installer_resume.go:183-453 | without a fault resume succeeds exactly when the operation is recoverable, no update is unfinished and no purge started, with exactly the missing saves; success is a complete installation, or a finished uninstall if one was journaled |
| `InstallerCommands.ApplyHostLocked` | internal/install/host_apply.go:35-55 | success means the host-apply stage is durable for good; without a fault it succeeds exactly when the accepted plan is the one on disk |
| `InstallerCommands.HostApplyReadable` | internal/install/accepted_linux.go:37-48 | in every reachable state the helper's demand on stages and status is met, so only the plan can refuse it |
| `InstallerCommands.CompleteHostApply` | internal/install/host_apply.go:273-290 | a failed stage save is answered by writing back the receipt from before it |
| `InstallerCommands.RollBackRestores` | internal/install/host_apply.go:273-288 | whichever receipt the failed save left, the rollback writes exactly the one from before the stage |
| `InstallerCommands.ResumeInstall` | cmd/secondbox-deploy/installer_resume.go:153-453 | the whole command over moments of one run, each ending in its own event: without a fault it succeeds exactly when nothing was pending and no update unfinished at its opening, the helper found the same plan where it is needed, and the operation is resumable under the lock; success means complete or ordinarily uninstalled |
| `InstallerCommands.UninstallLocked` | cmd/secondbox-deploy/installer_resume.go:1150-1198 | without a fault uninstall succeeds exactly on a recoverable, succeeded, uninstalling or uninstalled operation without an update, and ends uninstalled with the project removed |
| `InstallerCommands.Uninstall` | cmd/secondbox-deploy/installer_resume.go:1142-1198 | the whole command over moments of one run: without a fault the lock is taken, it succeeds exactly on a recoverable operation that can be uninstalled, and leaves no pending commit; success means uninstalled |
| `InstallerCommands.Support` | cmd/secondbox-deploy/installer_support.go:21-55 | without a fault the lock is taken and it succeeds exactly when no commit is lost, leaves nothing pending and changes neither plan nor receipt |
| `InstallerCommands.RecoverComposeLocked` | cmd/secondbox-deploy/installer_resume.go:1045-1081 | without a fault recovery succeeds exactly on the verified plan and a recoverable failure, and leaves the first seven stages failed at Compose |
| `InstallerCommands.StopPartialCompose` | cmd/secondbox-deploy/installer_resume.go:1068-1081 | the retry is journaled before Compose goes down |
| `InstallerCommands.RecoverableFacts` | internal/install/receipt.go:111-128 | in every reachable state the retry is refused exactly when the failure is before Compose or something is recorded as removed |
| `InstallerCommands.RecoverCompose` | cmd/secondbox-deploy/installer_resume.go:1018-1082 | the whole command over moments of one run, each ending in its own event: without a fault it succeeds exactly when nothing was pending at its opening, the failure was a partial Compose one, the helper verified the plan that is still there under the lock, and nothing is recorded as removed; success gave back exactly the stages from Compose on |
| `InstallerCommands.BootstrapLocked` | cmd/secondbox-deploy/tenancy_command.go:46-73 | under the lock, plan and receipt stay as they were, and without a fault it succeeds exactly on a readable operation past readiness without an update; only the check mode reads without recovery |
| `InstallerCommands.BootstrapTenancy` | cmd/secondbox-deploy/tenancy_command.go:39-73 | the whole command over moments of one run: without a fault the lock is taken and it succeeds exactly on such an operation; plan and receipt stay as they were, and unless it only checks it leaves no pending commit |
| `PurgeCommand.BeginPurgingLocked` | cmd/secondbox-deploy/installer_resume.go:1258-1281 | the confirmed operation is checked again under the lock; without a fault the intent becomes durable exactly on that operation when it is uninstalled or purging |
| `PurgeCommand.ValidatePurge` | cmd/secondbox-deploy/installer_resume.go:1282-1311 | without a fault validation passes unless another process finished the purge |
| `PurgeCommand.PurgeVolumes` | cmd/secondbox-deploy/installer_resume.go:1312-1342 | success means the removal is journaled; it is skipped only when it already was |
| `PurgeCommand.JournalVolumes` | cmd/secondbox-deploy/installer_resume.go:1325-1341 | the removal is journaled only with the deployment gone, and not after another process finished |
| `PurgeCommand.PurgeArtifacts` | internal/install/purge_linux.go:250-276 | success means the artifacts are recorded as removed |
| `PurgeCommand.PurgeHost` | internal/install/purge_linux.go:28-101 | success means every privileged resource is recorded as removed, all in the one save the helper makes, on the accepted plan only |
| `PurgeCommand.RemoveRest` | internal/install/purge_linux.go:386-447 | removals are recorded one by one, deeper paths first and the release manifest last, on every exit; without privileged leftovers and faults all of them |
| `PurgeCommand.PurgeUserLocked` | internal/install/purge_linux.go:376-447 | removes what is left in that order and ends Purged whenever the earlier windows did their part |
| `PurgeCommand.ContinuePurge` | cmd/secondbox-deploy/installer_resume.go:1282-1387 | whatever other processes do between the windows, a pass without a fault leaves the operation Purged |
| `PurgeCommand.Purge` | cmd/secondbox-deploy/installer_resume.go:1208-1388 | success means Purged with nothing of the deployment left; without a fault it ends Purged exactly when, at the moments of its opening and its first lock, nothing was pending and the operation was purged already, or confirmed and still there to purge |
| `StuckRestore.StuckForever` | cmd/secondbox-deploy/installer_resume.go:225-273 | an uninstalled deployment recorded as failed with Compose down stays so over every run |
| `StuckRestore.InServiceServes` | cmd/secondbox-deploy/installer_resume.go:239-273 | in every run the control plane runs wherever the journal says the deployment is up, in particular in every succeeded installation without an update |
| `StuckRestore.StuckExactlyWhen` | cmd/secondbox-deploy/installer_resume.go:225-238 | in every run that state is entered exactly when a resume's failed check becomes durable on an uninstalled deployment whose Compose is down |
| `RestingRun.InstalledRun` | cmd/secondbox-deploy/installer_resume.go:274-452 | every accepted plan has a run that completes its installation |
| `RestingRun.RollbackReachable` | internal/install/host_apply.go:273-288 | from every accepted plan the host-apply stage can become durable and be taken back again |
| `RestingRun.StuckReachable` | cmd/secondbox-deploy/installer_resume.go:512-514 | from every accepted plan a run leads through installation and uninstall to the state no command can leave |
| `PendingRun.CommitReachable` | cmd/secondbox-deploy/update_command.go:411-586 | every accepted plan has a run that installs it and takes an update to any newer release up to its commit |
| `PendingRun.PendingReachable` | internal/install/accepted_linux.go:221-253 | from every accepted plan one death inside the commit leads to a pending commit, and one inside the marker to a lost one |
| `OperationStore.Store.SaveOperation` | internal/install/accepted_linux.go:183-253 | recovery afterwards reaches only the old or the new pair; with a single death it is lost exactly by a torn marker; success is the new pair without leftovers |
| `OperationStore.SaveOutcome` | internal/install/accepted_linux.go:183-253 | however a save ends, recovery reaches only the old or the new pair, and a lost one leaves the old documents current |
| `OperationStore.Store.FinishCommit` | internal/install/accepted_linux.go:312-361 | never changes the pair recovery settles on, and without a fault succeeds exactly when each document is current or staged intact |
| `OperationStore.Store.RecoverOperation` | internal/install/accepted_linux.go:267-310 | never changes the pair recovery settles on, succeeds without a fault exactly when there is one, and then returns it |
| `OperationStore.Store.ReadOperation` | internal/install/accepted_linux.go:88-140 | readers without the lock accept exactly a store without pending files, so never a mixed pair |
| `OperationStore.DeathLeavesPending` | internal/install/accepted_linux.go:221-253 | one death in a save from a clean store can leave files that every opening refuses although recovery would settle on the new pair, or on the old one |
| `OperationStore.TornMarkerBlocksRecovery` | internal/install/accepted_linux.go:297-310 | one death while the marker is written can leave a torn one; every later recovery fails and stays without a pair, although both old documents are intact |
| `Refinement.OpeningsExactly` | internal/install/accepted_linux.go:88-155 | on the files that represent a protocol state the opening passes exactly when nothing is staged, and recovery can succeed exactly when it has a pair to settle on |
| `Refinement.CommitRefines` | internal/install/accepted_linux.go:183-253 | however a save of the activated pair ends, its files represent a commit of the protocol |
| `Refinement.RepairRefines` | internal/install/accepted_linux.go:267-310 | however a recovery ends, its files represent a recovery of the protocol, which never changes the pair |
| `Refinement.ReceiptSaveRefines` | internal/install/accepted_linux.go:255-265 | replacing the receipt file represents a receipt save |
| `Refinement.DeathStrandsUpdate` | internal/install/accepted_linux.go:221-253 | in every run ready to commit, a death after the marker is whole leaves the commit pending |
| `Refinement.DeathLosesCommit` | internal/install/accepted_linux.go:221-253 | in every run ready to commit, a death inside the marker loses it |
| `Refinement.Enroll` | internal/deployconfig/runner_init.go:18-33 | every outcome of `RunnerInitOrValidate` is a part of the protocol's enrollment effect, and success is the whole of it |
| `RunnerIdentity.AcceptedExactlyWhen` | internal/deployconfig/runner_init.go:175-302 | a published identity, with its key usages and single URI, is accepted exactly at the declared place by the same Runner, authority, environment and egress configuration within both lifetimes |
| `RunnerIdentity.ExpiredIdentityIsRefused` | internal/deployconfig/runner_init.go:264-268 | one second after its lifetime the published identity is refused by its own declaration |
| `RunnerIdentity.Parent.RunnerInit` | internal/deployconfig/runner_init.go:35-173 | the target is absent or the complete five-file set; it is published exactly without a fault and never over an existing one |
| `RunnerIdentity.Parent.RunnerInitOrValidate` | internal/deployconfig/runner_init.go:18-33 | over any number of crashed calls at most one identity is published, an existing one is never changed, and it is accepted or refused exactly as validation says |
| `RequestValidation.ObjectMember` | internal/api/request_validation.go:198-208 | finds the exact key, else some key equal up to case, and reports absence exactly when there is neither |
| `RequestValidation.Locate` | internal/api/request_validation.go:133-194 | every value along the path is the first field, element or sorted key that reproduces the refusal at its own type, and of every field of the last value one candidate was tried in vain; terminates on document and embedding depth |
| `RequestValidation.MaximalExactly` | internal/api/request_validation.go:140-208 | where the search ends no part reproduces the refusal, for every refusal, exactly when document and type leave each part as some field's only candidate |
| `RequestValidation.UnambiguousIsMaximal` | internal/api/request_validation.go:198-208 | the end is maximal unless two keys fold to one field name that is not itself a key |
| `RequestValidation.PathEndIsMaximal` | internal/api/request_validation.go:133-194 | a returned path leads to a value that reproduces the refusal, and unless keys fold together there no part of it does |
| `RequestValidation.FoldedKeysHideRefusal` | internal/api/request_validation.go:198-208 | a document with two folding keys for which the search may stop above a refused member |
| `RequestValidation.Collect` | internal/api/request_validation.go:36-56 | the bounded recursive collection is the first thirty-two named inputs of the error tree in depth-first order |
| `Table.TotalWidth` | internal/cliui/table.go:127-133 | sums the columns and the two blanks between neighbours |
| `Table.Round` | internal/cliui/table.go:77-90 | one round takes one from every shrinkable column, rightmost first, stops as soon as the layout fits, and changes nothing exactly at the floors |
| `Table.Shrink` | internal/cliui/table.go:77-91 | fits exactly when the floors fit; a shrunk layout fills the width exactly, no column falls below its floor, and columns above it differ in shrinkage by at most one, left columns less |
| `Table.Truncate` | internal/cliui/table.go:137-164 | the value itself if it fits, else its longest part that leaves room for the marker |
| `Table.PadFills` | internal/cliui/table.go:134-136 | padding fills a cell to exactly its column |
| `Table.Line` | internal/cliui/table.go:98-107 | a line is its truncated and padded cells in order and exactly as wide as the layout |
| `Table.RenderTable` | internal/cliui/table.go:58-112 | the empty message without rows; otherwise stacked exactly below width 48, without columns, or when the floors and gaps cannot fit, and else a grid of the titles and each row; columns that fit keep their natural widths, others are fairly shrunk to fill the width exactly, and no line is wider than the layout |
| `Table.RenderGrid` | internal/cliui/table.go:65-112 | the grid itself: stacks exactly when it cannot fit; otherwise natural widths if they fit, else fairly shrunk to exactly the width, with every title and cell truncated and padded in its column |
| `ComposeSubject.WriteSubject` | internal/deployconfig/compose.go:181-199 | the piecewise hashing writes the zero-terminated fields of project and files in order, and fails exactly when a file cannot be read |
| `ComposeSubject.SubjectIsInjective` | internal/deployconfig/compose.go:165-199 | equal preimages mean the same project and the same files, names and contents in the same order, for lists of any length |
| `ComposeSubject.ZeroByteCollides` | internal/deployconfig/compose.go:187-198 | whatever files come before and after it, a zero byte inside a file lets it pass for two |
| `Topology.RecordedIdentity` | internal/deployconfig/compose.go:238-291 | the recorded reader accepts exactly known modes, a valid project and at most one same-host Runner, and then selects the topology's files |
| `Topology.ResolveFiles` | internal/deployconfig/load.go:314-356 | the resolver selects the topology's files |
| `Topology.ValidateShape` | internal/deployconfig/load.go:519-545 | the loop with its seen sets accepts exactly the manifests whose Runners each fit beside the ones before |
| `Topology.SelectionsAgree` | internal/deployconfig/compose.go:238-291 | what the validator accepts the reader accepts, and whenever the reader accepts both select the same files in the same order |
| `EnvironmentSwap.Process.Validate` | internal/deployconfig/load.go:1289-1328 | unless a call of the swap failed the loader runs once and sees exactly the rendered owned variables and the foreign ones; unless a call of the restore failed the environment is as before, on every exit; success is exactly all of it with an accepting loader |
| `EnvironmentSwap.Process.Render` | internal/deployconfig/load.go:1319-1325 | sets exactly the owned rendered entries and fails exactly when one of its calls did |
| `EnvironmentSwap.Process.Restore` | internal/deployconfig/load.go:1299-1313 | fails exactly when one of its calls did, and otherwise puts back exactly the original owned entries |
| `HttpCodecs.HexRoundTrip` | internal/api/http.go:1256-1260 | decoding accepts either case and encoding prints the lower one |
| `HttpCodecs.DecodeInverts` | internal/api/http.go:1244-1245 | strict base64 decoding undoes encoding for bytes of any length |
| `HttpCodecs.ParsedExactly` | internal/api/http.go:1238-1249 | a digest header is accepted exactly when it is the printed form of thirty-two bytes, and yields their lower-case hex |
| `HttpCodecs.DigestRoundTrip` | internal/api/http.go:1238-1261 | printing any 64-digit checksum and parsing the header gives it back in lower case |
| `HttpCodecs.RevisionRoundTrip` | internal/api/http.go:1558-1570 | parsing undoes printing for every positive 64-bit revision |
| `HttpCodecs.ActionRecoveredExactly` | internal/api/http.go:1580-1588 | a listed action is recovered from every resource exactly when no earlier listed action overlaps it |
| `HttpCodecs.ColonFreeNeverOverlaps` | internal/api/http.go:1580-1588 | different actions without colons never overlap |
| `TerminalCredit.ServerConserves` | cmd/secondbox/sandbox_shell_command.go:296-309 | every step of the server and the network keeps the total of credit, output and grants |
| `TerminalCredit.Session.GrantOutput` | sdk/go/secondboxclient/terminal.go:204-213 | only positive amounts are granted, and only bytes that were being written |
| `TerminalCredit.Session.Shell` | cmd/secondbox/sandbox_shell_command.go:215-309 | in every interleaving, ended early or not, the outstanding credit is at most the clamped first grant, so it never exceeds a reported window |
| `TerminalCredit.DeliveryPossible` | cmd/secondbox/sandbox_shell_command.go:296-309 | a delivery is possible exactly until no output, no grant and no write is left |
| `TerminalCredit.EveryScheduleDrains` | cmd/secondbox/sandbox_shell_command.go:296-309 | every order of delivering output and grants ends, and once nothing is left the full credit is back at the server |
| `Quiescence.SandboxBlocksExactly` | cmd/secondbox-deploy/update_command.go:648-674 | the first branch reports exactly the live Sandboxes that are not at rest or have an active instance |
| `Quiescence.ActiveInstanceCovered` | cmd/secondbox-deploy/update_command.go:648-691 | the two branches together report every active instance |
| `Quiescence.NoBlockerExactly` | cmd/secondbox-deploy/update_command.go:647-697 | the query finds no blocker exactly when every instance is terminal and every live Sandbox is stopped with its Workspace at rest |
| `Quiescence.NullStateHides` | migrations/postgres/0001_secondbox.sql:150-160 | without the not-null constraint a null state would hide a Sandbox |

## Left out

- A host crash that loses directory entries not yet synced: only the process may die in `OperationStore`.
- Resource digests and the host resources that host apply journals one by one; the ledger keeps the published release resources with their intents and the resources tied to a stage.
- Timestamps other than those of activations, failure classes and evidence maps, except the Compose identity the boundary carries.
- The source-version boundaries of guided updates and `update --check`, which settle in one comparison each.
- `secondbox-deploy compose` and other commands that act on Compose without the operation lock.
- Locate: keys are strings of valid characters; which characters differ only in case is a parameter.
- Table: sanitizing, the sort by priority, themes and the stacked form's text; widths of runes are taken to add up.
- Topology: checks that do not concern the choice of Compose files.
- AcceptedExactlyWhen: PEM framing, the encoding of certificates and URL escaping of the Runner identifier are not described.
- InServiceServes: containers that stop by themselves are not modelled; only the modelled commands stop and start them.
- StuckExactlyWhen: exact as long as containers do not stop or start by themselves, for the same reason.
- GrantOutput: a server that sends an empty frame, for which the client's grant of zero bytes is refused.
- RevisionRoundTrip: other spellings that parsing also accepts, such as a sign or leading zeros, are not described.
- The joined path text of a refused member and the choice of a problem's title.
- HTTP handlers, the SDK, the scheduler, the store, the Runner and all presentation code.
