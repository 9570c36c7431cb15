/** The durable receipt of one installation operation: its record types, the
    operations that change it (internal/install/receipt.go, update.go) and the
    checks every save runs (internal/install/codec.go). */
module InstallReceipt {
  import opened Outcome

  datatype Stage =
    | Preflight | PlanAccepted | HostApply | ReleaseVerified | AssetsMaterialized | DeploymentMaterialized
    | RunnerEnrolled | ComposeStarted | CLILogin | Readiness | TenancyBootstrap | SmokeExecution

  const STAGE_COUNT: nat := 12

  /** Position in the stage sequence. */
  function Rank(stage: Stage): (rank: nat)
    ensures rank < STAGE_COUNT
  {
    match stage
    case Preflight => 0
    case PlanAccepted => 1
    case HostApply => 2
    case ReleaseVerified => 3
    case AssetsMaterialized => 4
    case DeploymentMaterialized => 5
    case RunnerEnrolled => 6
    case ComposeStarted => 7
    case CLILogin => 8
    case Readiness => 9
    case TenancyBootstrap => 10
    case SmokeExecution => 11
  }

  /** The completed stages are an initial part of the stage sequence. */
  predicate Contiguous(completed: seq<Stage>) {
    forall i :: 0 <= i < |completed| ==> Rank(completed[i]) == i
  }

  datatype UpdateStage =
    | UpdatePreflight | UpdateReleaseVerified | AssetsStaged | ActivationStarted | DeploymentPublished
    | UpdateComposeStarted | ResourcesApplied | UpdateReadiness | UpdateSmoke

  const UPDATE_STAGE_COUNT: nat := 9

  function UpdateRank(stage: UpdateStage): (rank: nat)
    ensures rank < UPDATE_STAGE_COUNT
  {
    match stage
    case UpdatePreflight => 0
    case UpdateReleaseVerified => 1
    case AssetsStaged => 2
    case ActivationStarted => 3
    case DeploymentPublished => 4
    case UpdateComposeStarted => 5
    case ResourcesApplied => 6
    case UpdateReadiness => 7
    case UpdateSmoke => 8
  }

  datatype Status = Planned | Running | Failed | Succeeded | Uninstalling | Uninstalled | Purging | Purged

  datatype UpdateStatus = UpdateRunning | UpdateFailed | UpdateSucceeded

  /** A release is compared by its whole content; the order on `version` is the
      release order and `manifest` stands for the artifact manifest digest. */
  datatype Release = Release(version: nat, manifest: nat)

  /** The accepted plan. Digests are injective, so comparing two plan digests is
      comparing two plans. */
  datatype Plan = Plan(operation: nat, tenancy: bool, release: Release, history: seq<Activation>)

  /** One entry of the activation history; the first one belongs to no update. */
  datatype Activation = Activation(release: Release, update: Option<nat>, at: nat)

  datatype Resource =
    | OperationDirectory | Artifacts | ClientBinary | DeployBinary | ReleaseManifest | RunnerIdentity
    | ComposeProject | ComposeEnvironment | ComposeAssets
    | CliConfig | OtherResource(id: nat)

  datatype UpdateRecord = UpdateRecord(
    id: nat, source: Release, target: Release, status: UpdateStatus, failure: Option<UpdateStage>,
    stages: seq<UpdateStage>, subject: string, updatedAt: nat)

  datatype Receipt = Receipt(
    status: Status, failure: Option<Stage>, completed: seq<Stage>, created: set<Resource>, pending: set<Resource>,
    removed: set<Resource>, volumesPurged: bool, updates: seq<UpdateRecord>)

  // ---- Queries ----

  predicate HasActiveUpdate(r: Receipt) {
    |r.updates| > 0 && !r.updates[|r.updates| - 1].status.UpdateSucceeded?
  }

  function LatestUpdate(r: Receipt): UpdateRecord
    requires |r.updates| > 0
  {
    r.updates[|r.updates| - 1]
  }

  /** Completed stages of the unfinished update; 0 when there is none. */
  function UpdateProgress(r: Receipt): nat {
    if HasActiveUpdate(r) then |LatestUpdate(r).stages| else 0
  }

  predicate BoundaryJournaled(r: Receipt) {
    UpdateProgress(r) > 3
  }

  predicate PurgeStarted(r: Receipt) {
    r.status.Purging? || r.status.Purged?
  }

  // ---- Installation operations (receipt.go) ----

  /** The resources the resume ladder records together with a stage. */
  function StageResources(stage: Stage): set<Resource> {
    match stage
    case DeploymentMaterialized => {ReleaseManifest}
    case RunnerEnrolled => {RunnerIdentity}
    case ComposeStarted => {ComposeProject, ComposeEnvironment, ComposeAssets}
    case CLILogin => {CliConfig}
    case _ => {}
  }

  function NextRank(r: Receipt): nat {
    if r.completed == [] then 0 else Rank(r.completed[|r.completed| - 1]) + 1
  }

  predicate EndsInSmoke(r: Receipt) {
    r.completed != [] && r.completed[|r.completed| - 1] == SmokeExecution
  }

  function CompleteStage(r: Receipt, stage: Stage): Option<Receipt> {
    if Rank(stage) != NextRank(r) then None
    else Some(r.(completed := r.completed + [stage], failure := None,
                 status := if stage == SmokeExecution then Succeeded else Running))
  }

  function FailStage(r: Receipt, stage: Stage): Receipt {
    r.(status := Failed, failure := Some(stage))
  }

  function MarkUninstalling(r: Receipt): Option<Receipt> {
    if r.status.Succeeded? && EndsInSmoke(r) then Some(r.(status := Uninstalling, failure := None)) else None
  }

  function MarkUninstalled(r: Receipt): Option<Receipt> {
    if r.status.Uninstalling? && EndsInSmoke(r) then Some(r.(status := Uninstalled, failure := None)) else None
  }

  function RestoreSucceeded(r: Receipt): Option<Receipt> {
    if r.status.Uninstalled? && EndsInSmoke(r)
    then Some(r.(status := Succeeded, removed := r.removed - {ComposeProject}))
    else None
  }

  function RecoverSucceeded(r: Receipt): Option<Receipt> {
    if r.status.Failed? && EndsInSmoke(r) then Some(r.(status := Succeeded, failure := None)) else None
  }

  const REPLAY_OWNED: set<Resource> := {ComposeProject, ComposeEnvironment, ComposeAssets, CliConfig}

  /** Journals a failure at or after Compose startup back to the stage before it. */
  function PrepareComposeRetry(r: Receipt): Option<Receipt> {
    if !PartialComposeFailure(r) || r.pending != {} || r.removed != {} || r.volumesPurged || !Contiguous(r.completed)
    then None
    else Some(r.(completed := r.completed[..Rank(ComposeStarted)], created := r.created - REPLAY_OWNED,
                 status := Failed, failure := Some(ComposeStarted)))
  }

  predicate PartialComposeFailure(r: Receipt) {
    && r.status.Failed?
    && r.failure.Some? && Rank(r.failure.value) >= Rank(ComposeStarted)
    && NextRank(r) > Rank(RunnerEnrolled)
  }

  function AppendResources(r: Receipt, resources: set<Resource>): Option<Receipt> {
    if resources * (r.created + r.removed) != {} then None else Some(r.(created := r.created + resources))
  }

  /** What the release stage publishes, each behind its own durable intent. */
  const MATERIALIZED: set<Resource> := {Artifacts, ClientBinary, DeployBinary}

  function BeginResource(r: Receipt, resource: Resource): Option<Receipt> {
    if resource in r.created + r.removed then None else Some(r.(pending := r.pending + {resource}))
  }

  function CompleteResource(r: Receipt, resource: Resource): Option<Receipt> {
    if resource !in r.pending || resource in r.created + r.removed then None
    else Some(r.(created := r.created + {resource}, pending := r.pending - {resource}))
  }

  function MarkResourcesRemoved(r: Receipt, resources: set<Resource>): Option<Receipt> {
    if resources <= r.created + r.removed then Some(r.(removed := r.removed + resources)) else None
  }

  function MarkPurging(r: Receipt): Option<Receipt> {
    if r.status.Uninstalled? then Some(r.(status := Purging)) else None
  }

  function CompletePurgeStep(r: Receipt): Option<Receipt> {
    if r.status.Purging? then Some(r.(volumesPurged := true)) else None
  }

  function MarkPurged(r: Receipt): Option<Receipt> {
    if r.status.Purging? && r.created - {OperationDirectory} <= r.removed && r.volumesPurged
    then Some(r.(status := Purged))
    else None
  }

  // ---- Update operations (update.go) ----

  function BeginUpdate(r: Receipt, id: nat, source: Release, target: Release): Option<Receipt> {
    if !r.status.Succeeded? || source.manifest == target.manifest || HasActiveUpdate(r)
       || (exists i :: 0 <= i < |r.updates| && r.updates[i].id == id)
    then None
    else Some(r.(updates := r.updates + [UpdateRecord(id, source, target, UpdateRunning, None, [], "", 0)]))
  }

  function WithLatest(r: Receipt, update: UpdateRecord): Receipt
    requires |r.updates| > 0
  {
    r.(updates := r.updates[..|r.updates| - 1] + [update])
  }

  /** `subject` is the evidence the activation boundary carries. */
  function CompleteUpdateStage(r: Receipt, stage: UpdateStage, subject: string): Option<Receipt> {
    if !HasActiveUpdate(r) || UpdateRank(stage) != |LatestUpdate(r).stages| then None
    else
      var u := LatestUpdate(r);
      Some(WithLatest(r, u.(stages := u.stages + [stage], status := UpdateRunning, failure := None,
                            subject := if stage.ActivationStarted? then subject else u.subject)))
  }

  function FailUpdate(r: Receipt, stage: UpdateStage): Option<Receipt> {
    if !HasActiveUpdate(r) then None
    else Some(WithLatest(r, LatestUpdate(r).(status := UpdateFailed, failure := Some(stage))))
  }

  /** An activation must come after the one it replaces. */
  predicate ClockAdvanced(p: Plan, now: nat) {
    |p.history| > 0 && now > p.history[|p.history| - 1].at
  }

  /** The pair that `ActivateUpdate` makes current. */
  function ActivateUpdate(p: Plan, r: Receipt, now: nat): Option<(Plan, Receipt)> {
    if !HasActiveUpdate(r) || |LatestUpdate(r).stages| != UPDATE_STAGE_COUNT || !ClockAdvanced(p, now) then None
    else
      var u := LatestUpdate(r);
      Some((p.(release := u.target, history := p.history + [Activation(u.target, Some(u.id), now)]),
            WithLatest(r, u.(status := UpdateSucceeded, failure := None, updatedAt := now))))
  }

  // ---- The check every save runs (codec.go) ----

  predicate ValidUpdate(u: UpdateRecord) {
    && u.source.manifest != u.target.manifest
    && |u.stages| <= UPDATE_STAGE_COUNT
    && (forall i :: 0 <= i < |u.stages| ==> UpdateRank(u.stages[i]) == i)
    && (|u.stages| > UpdateRank(ActivationStarted) ==> u.subject != "")
    && match u.status
       case UpdateRunning => u.failure.None? && |u.stages| != UPDATE_STAGE_COUNT
       case UpdateFailed => u.failure.Some? && |u.stages| != UPDATE_STAGE_COUNT
       case UpdateSucceeded => u.failure.None? && |u.stages| == UPDATE_STAGE_COUNT
  }

  predicate ValidUpdates(updates: seq<UpdateRecord>) {
    && (forall i :: 0 <= i < |updates| ==> ValidUpdate(updates[i]))
    && (forall i, j :: 0 <= i < j < |updates| ==> updates[i].id != updates[j].id)
    && (forall i :: 0 <= i < |updates| - 1 ==> updates[i].status.UpdateSucceeded?)
  }

  predicate Validate(r: Receipt) {
    && (r.status.Failed? <==> r.failure.Some?)
    && (forall i, j :: 0 <= i < j < |r.completed| ==> Rank(r.completed[i]) < Rank(r.completed[j]))
    && r.pending !! r.created
    && r.removed <= r.created
    && (r.volumesPurged ==> PurgeStarted(r))
    && ValidUpdates(r.updates)
    && (HasActiveUpdate(r) ==> r.status.Succeeded?)
  }

  /** `validateUpdateHistory`: walks the updates beside the activation history. */
  method ValidateUpdateHistory(p: Plan, r: Receipt) returns (ok: bool)
    requires ValidUpdates(r.updates) && |p.history| > 0
    ensures ok <==> HistoryCoherent(p, r)
  {
    var succeeded := 0;
    for i := 0 to |r.updates|
      invariant succeeded == if i > 0 && !r.updates[i - 1].status.UpdateSucceeded? then i - 1 else i
    {
      if r.updates[i].status.UpdateSucceeded? { succeeded := succeeded + 1; }
    }
    if |p.history| != 1 + succeeded { return false; }
    var linked := WalkHistory(p, r);
    return linked && p.history[|p.history| - 1].release == p.release;
  }

  function ActivationOf(u: UpdateRecord): Activation {
    Activation(u.target, Some(u.id), u.updatedAt)
  }

  /** Every update starts where the one before it ended. */
  predicate Linked(p: Plan, updates: seq<UpdateRecord>) {
    && (forall i :: 0 <= i < |updates| && i < |p.history| ==> updates[i].source == p.history[i].release)
    && (forall i :: 0 <= i < |updates| && i + 1 < |p.history| ==> p.history[i + 1] == ActivationOf(updates[i]))
  }

  method WalkHistory(p: Plan, r: Receipt) returns (ok: bool)
    requires ValidUpdates(r.updates) && |p.history| == if HasActiveUpdate(r) then |r.updates| else |r.updates| + 1
    ensures ok <==> Linked(p, r.updates)
  {
    if r.updates == [] { return true; }
    var current := p.history[0].release;
    for i := 0 to |r.updates|
      invariant i < |p.history| ==> current == p.history[i].release
      invariant forall j :: 0 <= j < i ==> r.updates[j].source == p.history[j].release
      invariant forall j :: 0 <= j < i && j + 1 < |p.history| ==> p.history[j + 1] == ActivationOf(r.updates[j])
    {
      if current != r.updates[i].source { return false; }
      if r.updates[i].status.UpdateSucceeded? {
        if p.history[i + 1] != ActivationOf(r.updates[i]) { return false; }
        current := r.updates[i].target;
      }
    }
    return true;
  }

  // ---- What the commands keep true of every durable pair ----

  /** Update i starts from the i-th activated release and, once recorded as
      succeeded, activates the next one; the plan names the last of them. */
  predicate HistoryCoherent(p: Plan, r: Receipt) {
    && |p.history| == (if HasActiveUpdate(r) then |r.updates| else |r.updates| + 1)
    && |p.history| > 0 && p.release == p.history[|p.history| - 1].release
    && (forall i :: 0 <= i < |r.updates| ==> r.updates[i].source == p.history[i].release)
    && (forall i :: 0 <= i < |r.updates| && i + 1 < |p.history| ==> p.history[i + 1] == ActivationOf(r.updates[i]))
  }

  predicate RecordedFrom(r: Receipt, resource: Resource, stage: Stage) {
    resource in r.created <==> |r.completed| > Rank(stage)
  }

  /** The resources tied to a stage are recorded exactly while it is completed. */
  predicate LedgerCoherent(r: Receipt) {
    && RecordedFrom(r, ReleaseManifest, DeploymentMaterialized)
    && RecordedFrom(r, RunnerIdentity, RunnerEnrolled)
    && RecordedFrom(r, ComposeProject, ComposeStarted)
    && RecordedFrom(r, ComposeEnvironment, ComposeStarted)
    && RecordedFrom(r, ComposeAssets, ComposeStarted)
    && RecordedFrom(r, CliConfig, CLILogin)
    && (|r.completed| > Rank(AssetsMaterialized) ==> MATERIALIZED <= r.created)
    && (|r.completed| != Rank(AssetsMaterialized) ==> r.pending == {})
    && r.pending <= MATERIALIZED && r.pending !! r.created
    && r.removed <= r.created
    && (!PurgeStarted(r) ==> r.removed <= {ComposeProject})
    && (r.status.Uninstalled? || PurgeStarted(r) ==> ComposeProject in r.removed)
    && (r.status.Purged? ==> r.created - {OperationDirectory} <= r.removed)
    && (ReleaseManifest in r.removed ==> Artifacts in r.removed)
  }

  predicate StatusCoherent(r: Receipt) {
    && 2 <= |r.completed| <= STAGE_COUNT && (|r.completed| == 2 ==> r.status.Running?)
    && Contiguous(r.completed)
    && (r.status.Failed? <==> r.failure.Some?)
    && !r.status.Planned?
    && (!r.status.Failed? ==> (r.status.Running? <==> |r.completed| < STAGE_COUNT))
    && (r.volumesPurged ==> PurgeStarted(r))
    && (r.status.Purged? ==> r.volumesPurged)
  }

  predicate InstallCoherent(r: Receipt) {
    StatusCoherent(r) && LedgerCoherent(r)
  }

  predicate Coherent(p: Plan, r: Receipt) {
    && InstallCoherent(r)
    && ValidUpdates(r.updates)
    && HistoryCoherent(p, r)
    && (HasActiveUpdate(r) ==> r.status.Succeeded?)
  }
}
