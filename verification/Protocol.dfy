/** The crash-recoverable operation protocol as a machine of guarded events.

    Every process of every command (install resume, host apply, update, ordinary
    uninstall, Compose recovery, purge, tenancy bootstrap) moves the shared state
    only by these events. The command modules prove that each effect their code
    issues meets its event's guard; this module proves what every interleaving
    of such events, with crashes and ambiguous failures, keeps true. */
module Protocol {
  import opened Outcome
  import opened InstallReceipt

  type Pid = nat

  datatype ControlPlane = Stopped | Serving(release: Release)

  /** An effect on the deployment, or a dependency that only inspects or stages. */
  datatype Deed =
    | StageRelease | StageFiles | ValidateSource | Confirm
    | Quiesce(fenced: bool)
    | StopControlPlane | StartControlPlane | SourceDown | ActivateArtifacts | PublishManifest
    | Prepare | Up | Down | Enroll
    | HostChanges | Publish(resource: Resource) | Initialize | Login | ProveReady
    | Tenancy | Smoke | ValidateActivated | CleanUpStaging
    | TeardownAuthority

  /** One change of the durable receipt. */
  datatype ReceiptOp =
    | Complete(stage: Stage)
    | Fail(stage: Stage)
    | IntendResource(resource: Resource) | RecordResource(resource: Resource)
    | RollBackHostApply
    | BeginUninstall | FinishUninstall | Restore | Recover | ComposeRetry | RecordTenancy
    | BeginPurge | VolumesPurged | RemoveResources(resources: set<Resource>) | FinishPurge
    | Begin(id: nat, target: Release)
    | CompleteUpdate(updateStage: UpdateStage, subject: string)
    | FailUpdateAt(updateStage: UpdateStage)

  datatype Event =
    | Acquire(pid: Pid)
    | Unlock(pid: Pid)                                    // lock closed, or its owner died
    | Open(pid: Pid)                                      // read-only opening found no pending commit
    | Repair(pid: Pid, direct: bool, ok: bool)            // RecoverOperation; `direct`: by a command without an opening
    | Attest(pid: Pid, plan: Plan)                        // privileged helper verified the plan on disk
    | Act(pid: Pid, deed: Deed, ok: bool, key: nat)       // `key` is the identity an enrollment generates
    | Save(pid: Pid, op: ReceiptOp, ok: bool, applied: bool)
    | Commit(pid: Pid, now: nat, ok: bool, applied: bool) // SaveOperation of the activated pair
    | RemoveVolumes(pid: Pid, ok: bool)                   // issued without the lock
    | Sandboxes(active: bool)                             // the deployment's own users

  /** The files beside the durable pair. `Unfinished`: staged documents or a
      commit marker are left and recovery settles on the pair. `Lost`: recovery
      cannot succeed. `shown` is the plan a reader that ignores them sees, if plan
      and receipt match. */
  datatype CommitFiles = Tidy | Unfinished(shown: Option<Plan>) | Lost(shown: Option<Plan>)

  datatype State = State(
    plan: Plan, receipt: Receipt,             // the durable pair
    files: CommitFiles, passed: set<Pid>,     // processes whose read-only opening passed
    lock: Option<Pid>, done: set<Deed>,       // the lock and what its holder did since the last save
    attested: map<Pid, Plan>,
    control: ControlPlane, database: bool,    // control plane and database containers
    active: bool,                             // some Sandbox is active
    artifacts: Release, manifest: Release,    // releases of the activated assets and published manifest
    upIssued: bool,                           // target Compose up issued since the last boundary
    volumes: bool,                            // durable Compose volumes exist
    identities: set<nat>)                     // every Runner identity ever published

  // ---- Receipt changes ----

  function ApplyOp(p: Plan, r: Receipt, op: ReceiptOp): Option<Receipt> {
    match op
    case Complete(stage) =>
      var recorded := AppendResources(r, StageResources(stage));
      if recorded.None? then None else CompleteStage(recorded.value, stage)
    case Fail(stage) => Some(FailStage(r, stage))
    case IntendResource(resource) => BeginResource(r, resource)
    case RecordResource(resource) => CompleteResource(r, resource)
    case RollBackHostApply =>
      if |r.completed| < 2 then None else Some(r.(completed := r.completed[..2], status := Running, failure := None))
    case BeginUninstall => MarkUninstalling(r)
    case FinishUninstall =>
      var marked := MarkUninstalled(r);
      if marked.None? then None else MarkResourcesRemoved(marked.value, {ComposeProject})
    case Restore => RestoreSucceeded(r)
    case Recover => RecoverSucceeded(r)
    case ComposeRetry => PrepareComposeRetry(r)
    case RecordTenancy => Some(r)
    case BeginPurge => MarkPurging(r)
    case VolumesPurged => CompletePurgeStep(r)
    case RemoveResources(resources) => MarkResourcesRemoved(r, resources)
    case FinishPurge => MarkPurged(r)
    case Begin(id, target) =>
      var begun := BeginUpdate(r, id, p.release, target);
      if begun.None? then None else CompleteUpdateStage(begun.value, UpdatePreflight, "")
    case CompleteUpdate(stage, subject) => CompleteUpdateStage(r, stage, subject)
    case FailUpdateAt(stage) => FailUpdate(r, stage)
  }

  // ---- Guards ----

  /** What must have succeeded under the lock, since the previous save, before a
      stage may be recorded. */
  function StageDeeds(p: Plan, stage: Stage): set<Deed> {
    match stage
    case HostApply => {HostChanges}
    case DeploymentMaterialized => {Initialize}
    case RunnerEnrolled => {Enroll}
    case ComposeStarted => {Prepare, Up}
    case CLILogin => {Login}
    case Readiness => {ProveReady}
    case TenancyBootstrap => if p.tenancy then {Tenancy} else {}
    case SmokeExecution => {Smoke}
    case _ => {}
  }

  function UpdateDeeds(stage: UpdateStage): set<Deed> {
    match stage
    case AssetsStaged => {StageRelease, StageFiles}
    case ActivationStarted => {ValidateSource, StopControlPlane, Quiesce(true)}
    case DeploymentPublished => {SourceDown, ActivateArtifacts, StageFiles, PublishManifest}
    case UpdateComposeStarted => {Prepare, Up}
    case UpdateReadiness => {ProveReady}
    case _ => {}
  }

  predicate Updating(s: State, pid: Pid, progress: nat) {
    && HasActiveUpdate(s.receipt) && UpdateProgress(s.receipt) == progress
    && pid in s.attested && s.attested[pid] == s.plan
  }

  predicate LadderAt(s: State, stage: Stage) {
    && !HasActiveUpdate(s.receipt)
    && (s.receipt.status.Running? || s.receipt.status.Failed?)
    && |s.receipt.completed| == Rank(stage)
  }

  /** The stage whose effect a deed is, when it changes the installation. */
  predicate DeedAllowed(s: State, pid: Pid, deed: Deed) {
    match deed
    case StageRelease => Updating(s, pid, 2)
    case StageFiles => Updating(s, pid, 2) || (Updating(s, pid, 4) && ActivateArtifacts in s.done)
    case ValidateSource => Updating(s, pid, 3)
    case Quiesce(fenced) => fenced ==> (Updating(s, pid, 3) && StopControlPlane in s.done)
    case StopControlPlane => Updating(s, pid, 3) && {ValidateSource, Quiesce(false)} <= s.done
    case StartControlPlane => Updating(s, pid, 3)
    case SourceDown => Updating(s, pid, 4)
    case ActivateArtifacts => Updating(s, pid, 4) && SourceDown in s.done
    case PublishManifest => Updating(s, pid, 4) && {ActivateArtifacts, StageFiles} <= s.done
    case Prepare => StartupAllowed(s, pid)
    case Up => StartupAllowed(s, pid) && Prepare in s.done
    case Down => DownAllowed(s, pid)
    case HostChanges => LadderAt(s, HostApply)
    case Publish(resource) => LadderAt(s, AssetsMaterialized) && resource in s.receipt.pending
    case Initialize => LadderAt(s, DeploymentMaterialized)
    case Enroll => LadderAt(s, RunnerEnrolled)
    case Login => LadderAt(s, CLILogin)
    case ValidateActivated => Updating(s, pid, 8) && Smoke in s.done
    case CleanUpStaging => Updating(s, pid, 8) && ValidateActivated in s.done
    case Smoke => Updating(s, pid, 8) || LadderAt(s, SmokeExecution)
    case ProveReady => |s.receipt.completed| >= Rank(Readiness)
    case Tenancy => |s.receipt.completed| >= Rank(TenancyBootstrap)
    case Confirm | TeardownAuthority => true
  }

  /** Compose starts for an update behind its boundary, to restore an ordinarily
      uninstalled deployment, or as its own installation stage. */
  predicate StartupAllowed(s: State, pid: Pid) {
    || Updating(s, pid, 5)
    || (s.receipt.status.Uninstalled? && !HasActiveUpdate(s.receipt))
    || LadderAt(s, ComposeStarted)
  }

  /** Compose goes down for an ordinary uninstall already journaled, or after a
      partial startup already journaled back to the stage before Compose. */
  predicate DownAllowed(s: State, pid: Pid) {
    && !HasActiveUpdate(s.receipt)
    && (s.receipt.status.Uninstalling?
        || (LadderAt(s, ComposeStarted) && s.receipt.failure == Some(ComposeStarted)
            && pid in s.attested && s.attested[pid] == s.plan))
  }

  /** Nothing of the Compose deployment is left. */
  predicate Gone(s: State) {
    !s.volumes && !s.database && s.control.Stopped?
  }

  /** When a command may propose a receipt change. Purge never looks at updates. */
  predicate OpAllowed(s: State, pid: Pid, op: ReceiptOp) {
    match op
    case Complete(stage) =>
      && LadderAt(s, stage) && StageDeeds(s.plan, stage) <= s.done
      && (stage.AssetsMaterialized? ==> MATERIALIZED <= s.receipt.created)
    case Fail(_) =>
      && !HasActiveUpdate(s.receipt) && !PurgeStarted(s.receipt) && !s.receipt.status.Uninstalling?
      && |s.receipt.completed| >= 3
    case IntendResource(resource) => LadderAt(s, AssetsMaterialized) && resource in MATERIALIZED
    case RecordResource(resource) => LadderAt(s, AssetsMaterialized) && Publish(resource) in s.done
    case RollBackHostApply =>
      && HostChanges in s.done && !HasActiveUpdate(s.receipt) && s.receipt.status.Running?
      && 2 <= |s.receipt.completed| <= 3
    case BeginUninstall => !HasActiveUpdate(s.receipt) && TeardownAuthority in s.done
    case FinishUninstall => !HasActiveUpdate(s.receipt) && Down in s.done
    case Restore => !HasActiveUpdate(s.receipt) && {Prepare, Up, ProveReady} <= s.done
    case Recover => !HasActiveUpdate(s.receipt) && ProveReady in s.done
    case ComposeRetry =>
      !HasActiveUpdate(s.receipt) && TeardownAuthority in s.done && pid in s.attested && s.attested[pid] == s.plan
    case RecordTenancy => !HasActiveUpdate(s.receipt) && Tenancy in s.done
    case BeginPurge => TeardownAuthority in s.done
    case VolumesPurged => Gone(s)
    case RemoveResources(resources) =>
      s.receipt.status.Purging? && (ReleaseManifest in resources ==> Artifacts in s.receipt.removed)
    case FinishPurge => true
    case Begin(_, target) =>
      && {Quiesce(false), Confirm} <= s.done && target.version > s.plan.release.version
      && |s.receipt.completed| == STAGE_COUNT && pid in s.attested && s.attested[pid] == s.plan
    case CompleteUpdate(stage, subject) =>
      && Updating(s, pid, UpdateRank(stage)) && UpdateDeeds(stage) <= s.done && !stage.UpdateSmoke?
      && (stage.ActivationStarted? ==> subject != "")
    case FailUpdateAt(_) => HasActiveUpdate(s.receipt) && pid in s.attested && s.attested[pid] == s.plan
  }

  // ---- Effects ----

  /** The world after a deed took its whole effect. */
  function Applied(s: State, deed: Deed, key: nat): State {
    match deed
    case StopControlPlane => s.(control := Stopped)
    case StartControlPlane => s.(control := Serving(s.manifest), database := true)
    case SourceDown | Down => s.(control := Stopped, database := false)
    case ActivateArtifacts => if |s.receipt.updates| > 0 then s.(artifacts := LatestUpdate(s.receipt).target) else s
    case PublishManifest => if |s.receipt.updates| > 0 then s.(manifest := LatestUpdate(s.receipt).target) else s
    case Prepare => s.(database := true, volumes := true)
    case Up => s.(database := true, volumes := true, control := Serving(s.manifest))
    case Enroll => if s.identities == {} then s.(identities := {key}) else s
    case _ => s
  }

  /** A deed that failed or was cut off took any part of its effect. */
  predicate Partly(s: State, whole: State, part: State) {
    && part == s.(control := part.control, database := part.database, artifacts := part.artifacts,
                  manifest := part.manifest, volumes := part.volumes, identities := part.identities)
    && (part.control == s.control || part.control == whole.control)
    && (part.database == s.database || part.database == whole.database)
    && (part.artifacts == s.artifacts || part.artifacts == whole.artifacts)
    && (part.manifest == s.manifest || part.manifest == whole.manifest)
    && (part.volumes == s.volumes || part.volumes == whole.volumes)
    && (part.identities == s.identities || part.identities == whole.identities)
  }

  /** Deeds whose result a later deed overturns. */
  function Overturned(deed: Deed): set<Deed> {
    match deed
    case StartControlPlane => {StopControlPlane, Quiesce(true)}
    case Down => {Prepare, Up}
    case _ => {}
  }

  /** Bookkeeping of a deed: what its issuer knows, and whether the target went up. */
  function Recorded(s: State, world: State, deed: Deed, ok: bool): State {
    world.(upIssued := s.upIssued || (deed.Up? && BoundaryJournaled(s.receipt)),
           done := s.done - Overturned(deed) + (if ok then {deed} else {}))
  }

  /** Deeds that succeed only through a running control plane. */
  predicate CallsApi(deed: Deed) {
    deed.Login? || deed.ProveReady? || deed.Tenancy? || deed.Smoke?
  }

  predicate ActStep(s: State, e: Event, s': State)
    requires e.Act?
  {
    var world := s'.(upIssued := s.upIssued, done := s.done);
    && s.lock == Some(e.pid) && DeedAllowed(s, e.pid, e.deed)
    && Partly(s, Applied(s, e.deed, e.key), world)
    && (e.ok ==> world == Applied(s, e.deed, e.key))
    && (e.deed.Quiesce? && e.ok ==> s.database && !s.active)
    && (CallsApi(e.deed) && e.ok ==> s.control.Serving?)
    && s' == Recorded(s, world, e.deed, e.ok)
  }

  /** A failed save left the old or the new receipt. Its owner no longer knows
      which, and keeps only what a host-apply rollback relies on. */
  predicate SaveStep(s: State, e: Event, s': State)
    requires e.Save?
  {
    var next := ApplyOp(s.plan, s.receipt, e.op);
    && s.lock == Some(e.pid) && s.files.Tidy? && OpAllowed(s, e.pid, e.op)
    && next.Some?
    && (e.ok ==> e.applied)
    && s' == s.(receipt := if e.applied then next.value else s.receipt,
                done := if e.ok then {} else s.done * {HostChanges},
                upIssued := s.upIssued && !(e.applied && JournalsBoundary(e.op)))
  }

  predicate JournalsBoundary(op: ReceiptOp) {
    op.CompleteUpdate? && op.updateStage.ActivationStarted?
  }

  /** The pair that completes an update: last stage, then activation. */
  function FinishedUpdate(p: Plan, r: Receipt, now: nat): Option<(Plan, Receipt)> {
    var completed := CompleteUpdateStage(r, UpdateSmoke, "");
    if completed.None? then None else ActivateUpdate(p, completed.value, now)
  }

  /** What a commit that did not report success may leave beside the pair. */
  predicate LeftBehind(before: Plan, next: Plan, applied: bool, files: CommitFiles) {
    && (files.Lost? ==> !applied)
    && (files.Tidy? || files.shown.None? || files.shown == Some(before) || files.shown == Some(next))
  }

  predicate CommitStep(s: State, e: Event, s': State)
    requires e.Commit?
  {
    var next := FinishedUpdate(s.plan, s.receipt, e.now);
    && s.lock == Some(e.pid) && s.files.Tidy? && Updating(s, e.pid, 8)
    && {Smoke, ValidateActivated, CleanUpStaging} <= s.done
    && next.Some?
    && (e.ok ==> e.applied && s'.files.Tidy?)
    && LeftBehind(s.plan, next.value.0, e.applied, s'.files)
    && s' == (if e.applied then s.(plan := next.value.0, receipt := next.value.1) else s)
            .(done := {}, files := s'.files)
  }

  /** Recovery never changes the pair it settles on. A failed attempt may have
      published the plan, or have removed everything but its own success. */
  predicate Recovered(s: State, files: CommitFiles) {
    && (s.files.Tidy? ==> files.Tidy?)
    && (s.files.Unfinished? ==> !files.Lost?)
    && (s.files.Lost? ==> files.Lost?)
    && (files.Unfinished? ==> files.shown.None? || files.shown == s.files.shown || files.shown == Some(s.plan))
  }

  predicate RepairStep(s: State, e: Event, s': State)
    requires e.Repair?
  {
    && s.lock == Some(e.pid) && (e.direct || e.pid in s.passed)
    && Recovered(s, s'.files) && (e.ok ==> s'.files.Tidy?)
    && s' == s.(files := s'.files)
  }

  /** A reader that ignores staged documents and marker sees this plan. */
  predicate Shows(s: State, plan: Plan) {
    if s.files.Tidy? then s.plan == plan else s.files.shown == Some(plan)
  }

  function WithoutVolumes(s: State): State {
    s.(volumes := false, control := Stopped, database := false)
  }

  predicate Step(s: State, e: Event, s': State) {
    match e
    case Acquire(pid) => s.lock.None? && s' == s.(lock := Some(pid), done := {})
    case Unlock(pid) => s.lock == Some(pid) && s' == s.(lock := None, done := {})
    case Open(pid) => s.files.Tidy? && s' == s.(passed := s.passed + {pid})
    case Repair(_, _, _) => RepairStep(s, e, s')
    case Attest(pid, plan) =>
      && s.lock.None? && Shows(s, plan) && |s.receipt.completed| >= 3
      && s' == s.(attested := s.attested[pid := plan])
    case Act(_, _, _, _) => ActStep(s, e, s')
    case Save(_, _, _, _) => SaveStep(s, e, s')
    case Commit(_, _, _, _) => CommitStep(s, e, s')
    case RemoveVolumes(_, ok) =>
      && PurgeStarted(s.receipt)
      && Partly(s, WithoutVolumes(s), s')
      && (ok ==> Gone(s'))
    case Sandboxes(active) => (active ==> s.active || s.control.Serving?) && s' == s.(active := active)
  }

  predicate Initial(s: State) {
    && s.receipt == Receipt(Running, None, [Preflight, PlanAccepted], {OperationDirectory}, {}, {}, false, [])
    && |s.plan.history| == 1 && s.plan.history[0].release == s.plan.release
    && s.files.Tidy? && s.passed == {} && s.lock.None? && s.done == {} && s.attested == map[]
    && s.control.Stopped? && !s.database && !s.active && !s.upIssued && !s.volumes
    && s.artifacts == s.plan.release && s.manifest == s.plan.release && s.identities == {}
  }

  // ---- Runs ----

  datatype Run = Start(state: State) | Then(run: Run, event: Event, state: State)

  ghost predicate IsRun(r: Run) {
    match r
    case Start(s) => Initial(s)
    case Then(p, e, s) => IsRun(p) && Step(p.state, e, s)
  }

  /** `later` continues `earlier`, possibly by no step. */
  ghost predicate Continues(earlier: Run, later: Run) {
    earlier == later || (later.Then? && Continues(earlier, later.run))
  }

  /** The last thing that happened. */
  predicate EndsIn(r: Run, e: Event) {
    r.Then? && r.event == e
  }

  /** Since `pid` last took the lock, it stopped the control plane with success and
      issued no restart after that. */
  ghost predicate FenceUp(r: Run, pid: Pid) {
    && r.Then? && !EndsIn(r, Acquire(pid))
    && if r.event.Act? && r.event.pid == pid then FenceAfter(FenceUp(r.run, pid), r.event.deed, r.event.ok)
       else FenceUp(r.run, pid)
  }

  predicate FenceAfter(up: bool, deed: Deed, ok: bool) {
    (up || (deed.StopControlPlane? && ok)) && !deed.StartControlPlane?
  }

  // ---- The invariant ----

  predicate ReleasesCoherent(s: State) {
    var progress := UpdateProgress(s.receipt);
    if progress <= 3 then
      && s.artifacts == s.plan.release && s.manifest == s.plan.release
      && (s.control.Serving? ==> s.control.release == s.plan.release)
    else
      var target := LatestUpdate(s.receipt).target;
      && (s.artifacts == s.plan.release || s.artifacts == target)
      && (s.manifest == s.plan.release || s.manifest == target)
      && (s.manifest == target ==> s.artifacts == target)
      && (progress > 4 ==> s.manifest == target)
      && (s.control.Serving? ==> s.upIssued && s.control.release == target)
  }

  /** Between the durable boundary and the target's Compose up nothing runs. */
  predicate Fenced(s: State) {
    && (BoundaryJournaled(s.receipt) && !s.upIssued ==> s.control.Stopped? && !s.active)
    && (UpdateProgress(s.receipt) == 4 ==> !s.upIssued)
    && (UpdateProgress(s.receipt) > 5 ==> s.upIssued)
  }

  /** What the lock holder's own successful deeds still guarantee. */
  predicate DeedsHold(s: State) {
    var progress := UpdateProgress(s.receipt);
    && (s.lock.None? ==> s.done == {})
    && (progress == 3 && StopControlPlane in s.done ==> s.control.Stopped?)
    && (progress == 3 && Quiesce(true) in s.done ==> s.control.Stopped? && !s.active)
    && (progress == 4 && SourceDown in s.done ==> !s.database)
    && (progress == 4 && ActivateArtifacts in s.done ==> s.artifacts == LatestUpdate(s.receipt).target)
    && (progress == 4 && PublishManifest in s.done ==> s.manifest == LatestUpdate(s.receipt).target)
    && (progress == 5 && Up in s.done ==> s.upIssued && s.control == Serving(s.manifest))
    && (Enroll in s.done ==> s.identities != {})
  }

  predicate WorldInv(s: State) {
    && ReleasesCoherent(s)
    && Fenced(s)
    && DeedsHold(s)
    && (s.receipt.volumesPurged ==> Gone(s))
    && |s.identities| <= 1
    && (|s.receipt.completed| > Rank(RunnerEnrolled) ==> s.identities != {})
  }

  predicate Inv(s: State) {
    && Coherent(s.plan, s.receipt)
    && (HasActiveUpdate(s.receipt) ==> UpdateProgress(s.receipt) > 0)
    && (!s.files.Tidy? ==> s.receipt.status.Succeeded? && |s.receipt.completed| == STAGE_COUNT)
    && WorldInv(s)
  }
}
