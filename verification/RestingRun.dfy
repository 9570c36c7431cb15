/** A run from the accepted plan to an installed and ordinarily uninstalled
    deployment, and on to the state no command can leave. */
module RestingRun {
  import opened Outcome
  import opened InstallReceipt
  import opened Protocol
  import opened ProtocolSafety
  import opened ProtocolTheorems
  import opened StuckRestore

  /** What a deed leaves alone. */
  lemma WholeEffect(s: State, deed: Deed)
    ensures var world := Applied(s, deed, 0);
            world == s.(control := world.control, database := world.database, artifacts := world.artifacts,
                        manifest := world.manifest, volumes := world.volumes, identities := world.identities)
  {
  }

  lemma DeedSucceeds(s: State, pid: Pid, deed: Deed)
    requires s.lock == Some(pid) && DeedAllowed(s, pid, deed)
    requires (deed.Quiesce? ==> s.database && !s.active) && (CallsApi(deed) ==> s.control.Serving?)
    ensures ActStep(s, Act(pid, deed, true, 0), Recorded(s, Applied(s, deed, 0), deed, true))
  {
    WholeEffect(s, deed);
    var next := Recorded(s, Applied(s, deed, 0), deed, true);
    assert next.(upIssued := s.upIssued, done := s.done) == Applied(s, deed, 0);
  }

  /** One successful deed. */
  lemma Did(r: Run, pid: Pid, deed: Deed) returns (next: Run)
    requires IsRun(r) && r.state.lock == Some(pid) && DeedAllowed(r.state, pid, deed)
    requires (deed.Quiesce? ==> r.state.database && !r.state.active) && (CallsApi(deed) ==> r.state.control.Serving?)
    ensures IsRun(next) && next.state == Recorded(r.state, Applied(r.state, deed, 0), deed, true)
  {
    DeedSucceeds(r.state, pid, deed);
    next := Then(r, Act(pid, deed, true, 0), Recorded(r.state, Applied(r.state, deed, 0), deed, true));
  }

  /** One successful save of an installation change. */
  lemma SavedNext(r: Run, pid: Pid, op: ReceiptOp) returns (next: Run)
    requires IsRun(r) && r.state.lock == Some(pid) && r.state.files.Tidy? && OpAllowed(r.state, pid, op)
    requires ApplyOp(r.state.plan, r.state.receipt, op).Some? && !ChangesUpdates(op)
    ensures IsRun(next) && next == Then(r, Save(pid, op, true, true), next.state)
    ensures next.state == r.state.(receipt := ApplyOp(r.state.plan, r.state.receipt, op).value, done := {})
  {
    var s := r.state.(receipt := ApplyOp(r.state.plan, r.state.receipt, op).value, done := {});
    assert SaveStep(r.state, Save(pid, op, true, true), s);
    next := Then(r, Save(pid, op, true, true), s);
  }

  /** The first `n` stages are recorded, nothing else happened since. */
  predicate Rung(s: State, pid: Pid, n: nat) {
    && s.lock == Some(pid) && s.files.Tidy? && s.done == {}
    && s.receipt.updates == [] && s.receipt.status.Running? && |s.receipt.completed| == n && s.receipt.removed == {}
    && (n > Rank(ComposeStarted) ==> s.control.Serving? && s.database) && !s.active
  }

  lemma StageSaved(r: Run, pid: Pid, stage: Stage) returns (next: Run)
    requires IsRun(r) && r.state.lock == Some(pid) && r.state.files.Tidy? && OpAllowed(r.state, pid, Complete(stage))
    ensures IsRun(next) && next.state == r.state.(receipt := next.state.receipt, done := {})
    ensures var receipt := next.state.receipt;
            && receipt.completed == r.state.receipt.completed + [stage] && receipt.updates == r.state.receipt.updates
            && receipt.created == r.state.receipt.created + StageResources(stage)
            && receipt.pending == r.state.receipt.pending && receipt.removed == r.state.receipt.removed
            && receipt.status == (if stage.SmokeExecution? then Succeeded else Running)
  {
    RunInv(r);
    StageCompleted(r.state.plan, r.state.receipt, stage);
    next := SavedNext(r, pid, Complete(stage));
  }

  lemma Recorded1(r: Run, pid: Pid, stage: Stage) returns (next: Run)
    requires IsRun(r) && Rung(r.state.(done := {}), pid, Rank(stage)) && StageDeeds(r.state.plan, stage) <= r.state.done
    requires stage.AssetsMaterialized? ==> MATERIALIZED <= r.state.receipt.created
    requires stage.ComposeStarted? ==> r.state.control.Serving? && r.state.database
    ensures IsRun(next) && (!stage.SmokeExecution? ==> Rung(next.state, pid, Rank(stage) + 1))
    ensures stage.SmokeExecution? ==> AtTheTop(next.state, pid, Succeeded)
    ensures next.state.plan == r.state.plan && next.state.receipt.created >= r.state.receipt.created
  {
    next := StageSaved(r, pid, stage);
  }

  /** All stages are recorded. */
  predicate AtTheTop(s: State, pid: Pid, status: Status) {
    && s.lock == Some(pid) && s.files.Tidy? && s.done == {}
    && s.receipt.updates == [] && s.receipt.status == status
    && |s.receipt.completed| == STAGE_COUNT && EndsInSmoke(s.receipt) && s.receipt.removed == {}
    && (status.Succeeded? ==> s.control.Serving? && s.database && !s.active)
  }

  /** A stage with one deed. */
  lemma Climbed(r: Run, pid: Pid, stage: Stage, deed: Deed) returns (next: Run)
    requires IsRun(r) && Rung(r.state, pid, Rank(stage)) && StageDeeds(r.state.plan, stage) == {deed}
    requires DeedAllowed(r.state, pid, deed) && !deed.Quiesce? && !deed.Up? && !deed.Down? && !ChangesSource(deed)
    requires !stage.AssetsMaterialized? && !stage.ComposeStarted? && (CallsApi(deed) ==> r.state.control.Serving?)
    ensures IsRun(next) && (!stage.SmokeExecution? ==> Rung(next.state, pid, Rank(stage) + 1))
    ensures stage.SmokeExecution? ==> AtTheTop(next.state, pid, Succeeded)
    ensures next.state.plan == r.state.plan
  {
    next := Did(r, pid, deed);
    next := Recorded1(next, pid, stage);
  }

  lemma IntentSaved(r: Run, pid: Pid, resource: Resource) returns (next: Run)
    requires IsRun(r) && Rung(r.state, pid, 4) && resource in MATERIALIZED
    requires resource !in r.state.receipt.created && r.state.receipt.pending == {}
    ensures IsRun(next) && next.state == r.state.(receipt := r.state.receipt.(pending := {resource}))
  {
    next := SavedNext(r, pid, IntendResource(resource));
  }

  lemma PublicationDone(r: Run, pid: Pid, resource: Resource) returns (next: Run)
    requires IsRun(r) && Rung(r.state, pid, 4) && resource in r.state.receipt.pending
    ensures IsRun(next) && next.state == r.state.(done := {Publish(resource)})
  {
    next := Did(r, pid, Publish(resource));
  }

  lemma RecordSaved(r: Run, pid: Pid, resource: Resource) returns (next: Run)
    requires IsRun(r) && Rung(r.state.(done := {}), pid, 4) && Publish(resource) in r.state.done
    requires resource !in r.state.receipt.created && r.state.receipt.pending == {resource}
    ensures IsRun(next)
    ensures next.state == r.state.(done := {}, receipt := r.state.receipt.(
                            created := r.state.receipt.created + {resource}, pending := {}))
  {
    next := SavedNext(r, pid, RecordResource(resource));
  }

  /** Intent, publication and record of one resource of the release. */
  lemma PublishedOne(r: Run, pid: Pid, resource: Resource) returns (next: Run)
    requires IsRun(r) && Rung(r.state, pid, 4) && resource in MATERIALIZED
    requires resource !in r.state.receipt.created && r.state.receipt.pending == {}
    ensures IsRun(next) && Rung(next.state, pid, 4) && next.state.plan == r.state.plan
    ensures next.state.receipt.created == r.state.receipt.created + {resource} && next.state.receipt.pending == {}
  {
    next := IntentSaved(r, pid, resource);
    next := PublicationDone(next, pid, resource);
    next := RecordSaved(next, pid, resource);
  }

  lemma Materialized(r: Run, pid: Pid) returns (next: Run)
    requires IsRun(r) && Rung(r.state, pid, 4) && r.state.receipt.created == {OperationDirectory}
    requires r.state.receipt.pending == {}
    ensures IsRun(next) && Rung(next.state, pid, 5) && next.state.plan == r.state.plan
  {
    next := PublishedOne(r, pid, Artifacts);
    next := PublishedOne(next, pid, ClientBinary);
    next := PublishedOne(next, pid, DeployBinary);
    next := Recorded1(next, pid, AssetsMaterialized);
  }

  lemma ComposeUp(r: Run, pid: Pid) returns (next: Run)
    requires IsRun(r) && Rung(r.state, pid, 7)
    ensures IsRun(next) && Rung(next.state, pid, 8) && next.state.plan == r.state.plan
  {
    next := Did(r, pid, Prepare);
    next := Did(next, pid, Up);
    next := Recorded1(next, pid, ComposeStarted);
  }

  lemma HostPrepared(r: Run, pid: Pid) returns (next: Run)
    requires IsRun(r) && Rung(r.state, pid, 2) && r.state.receipt.created == {OperationDirectory}
    requires r.state.receipt.pending == {}
    ensures IsRun(next) && Rung(next.state, pid, 4) && next.state.plan == r.state.plan
    ensures next.state.receipt.created == {OperationDirectory} && next.state.receipt.pending == {}
  {
    next := Did(r, pid, HostChanges);
    next := RecordedBare(next, pid, HostApply);
    next := RecordedBare(next, pid, ReleaseVerified);
  }

  /** A save that takes hold although it reports a failure. */
  lemma SavedInDoubt(r: Run, pid: Pid, op: ReceiptOp) returns (next: Run)
    requires IsRun(r) && r.state.lock == Some(pid) && r.state.files.Tidy? && OpAllowed(r.state, pid, op)
    requires ApplyOp(r.state.plan, r.state.receipt, op).Some? && !ChangesUpdates(op)
    ensures IsRun(next)
    ensures next.state == r.state.(receipt := ApplyOp(r.state.plan, r.state.receipt, op).value,
                                   done := r.state.done * {HostChanges})
  {
    var s := r.state.(receipt := ApplyOp(r.state.plan, r.state.receipt, op).value,
                      done := r.state.done * {HostChanges});
    assert SaveStep(r.state, Save(pid, op, false, true), s);
    next := Then(r, Save(pid, op, false, true), s);
  }

  /** From every accepted plan the host-apply stage can become durable and be taken
      back again. */
  lemma RollbackReachable(plan: Plan, pid: Pid) returns (r: Run)
    requires |plan.history| == 1 && plan.history[0].release == plan.release
    ensures IsRun(r) && EndsIn(r, Save(pid, RollBackHostApply, true, true))
    ensures |r.run.state.receipt.completed| == 3 && |r.state.receipt.completed| == 2
  {
    r := AcceptedRun(plan, pid);
    r := Did(r, pid, HostChanges);
    r := HostApplyDoubted(r, pid);
    r := SavedNext(r, pid, RollBackHostApply);
  }

  lemma HostApplyDoubted(r: Run, pid: Pid) returns (next: Run)
    requires IsRun(r) && Rung(r.state.(done := {}), pid, 2) && HostChanges in r.state.done
    ensures IsRun(next) && next.state.lock == Some(pid) && next.state.files.Tidy? && HostChanges in next.state.done
    ensures |next.state.receipt.completed| == 3 && next.state.receipt.status.Running?
    ensures next.state.receipt.updates == []
  {
    RunInv(r);
    StageCompleted(r.state.plan, r.state.receipt, HostApply);
    next := SavedInDoubt(r, pid, Complete(HostApply));
  }

  /** A stage that records no resources. */
  lemma RecordedBare(r: Run, pid: Pid, stage: Stage) returns (next: Run)
    requires IsRun(r) && Rung(r.state.(done := {}), pid, Rank(stage)) && StageDeeds(r.state.plan, stage) <= r.state.done
    requires stage.HostApply? || stage.ReleaseVerified?
    ensures IsRun(next) && Rung(next.state, pid, Rank(stage) + 1) && next.state.plan == r.state.plan
    ensures next.state.receipt.created == r.state.receipt.created
    ensures next.state.receipt.pending == r.state.receipt.pending
  {
    next := StageSaved(r, pid, stage);
  }

  lemma Qualified(r: Run, pid: Pid) returns (next: Run)
    requires IsRun(r) && Rung(r.state, pid, 8)
    ensures IsRun(next) && AtTheTop(next.state, pid, Succeeded) && next.state.plan == r.state.plan
  {
    next := LoggedIn(r, pid);
    next := ProvedReady(next, pid);
    next := Bootstrapped(next, pid);
    next := Smoked(next, pid);
  }

  lemma LoggedIn(r: Run, pid: Pid) returns (next: Run)
    requires IsRun(r) && Rung(r.state, pid, 8)
    ensures IsRun(next) && Rung(next.state, pid, 9) && next.state.plan == r.state.plan
  {
    next := Climbed(r, pid, CLILogin, Login);
  }

  lemma ProvedReady(r: Run, pid: Pid) returns (next: Run)
    requires IsRun(r) && Rung(r.state, pid, 9)
    ensures IsRun(next) && Rung(next.state, pid, 10) && next.state.plan == r.state.plan
  {
    next := Climbed(r, pid, Readiness, ProveReady);
  }

  lemma Smoked(r: Run, pid: Pid) returns (next: Run)
    requires IsRun(r) && Rung(r.state, pid, 11)
    ensures IsRun(next) && AtTheTop(next.state, pid, Succeeded) && next.state.plan == r.state.plan
  {
    next := Climbed(r, pid, SmokeExecution, Smoke);
  }

  lemma Bootstrapped(r: Run, pid: Pid) returns (next: Run)
    requires IsRun(r) && Rung(r.state, pid, 10)
    ensures IsRun(next) && Rung(next.state, pid, 11) && next.state.plan == r.state.plan
  {
    if r.state.plan.tenancy {
      next := Climbed(r, pid, TenancyBootstrap, Tenancy);
    } else {
      next := Recorded1(r, pid, TenancyBootstrap);
    }
  }

  /** Any accepted plan can be installed in one go. */
  lemma InstalledRun(plan: Plan, pid: Pid) returns (r: Run)
    requires |plan.history| == 1 && plan.history[0].release == plan.release
    ensures IsRun(r) && AtTheTop(r.state, pid, Succeeded) && r.state.plan == plan
  {
    r := AcceptedRun(plan, pid);
    r := HostPrepared(r, pid);
    r := Materialized(r, pid);
    r := Deployed(r, pid);
    r := ComposeUp(r, pid);
    r := Qualified(r, pid);
  }

  lemma AcceptedRun(plan: Plan, pid: Pid) returns (r: Run)
    requires |plan.history| == 1 && plan.history[0].release == plan.release
    ensures IsRun(r) && Rung(r.state, pid, 2) && r.state.plan == plan
    ensures r.state.receipt.created == {OperationDirectory} && r.state.receipt.pending == {}
  {
    var receipt := Receipt(Running, None, [Preflight, PlanAccepted], {OperationDirectory}, {}, {}, false, []);
    var s := State(plan, receipt, Tidy, {}, None, {}, map[], ControlPlane.Stopped, false, false,
                   plan.release, plan.release, false, false, {});
    r := Then(Start(s), Acquire(pid), s.(lock := Some(pid), done := {}));
  }

  lemma Deployed(r: Run, pid: Pid) returns (next: Run)
    requires IsRun(r) && Rung(r.state, pid, 5)
    ensures IsRun(next) && Rung(next.state, pid, 7) && next.state.plan == r.state.plan
  {
    next := Climbed(r, pid, DeploymentMaterialized, Initialize);
    next := Climbed(next, pid, RunnerEnrolled, Enroll);
  }

  /** Uninstalled, with Compose down. */
  predicate Resting(s: State, pid: Pid) {
    && s.lock == Some(pid) && s.files.Tidy? && s.done == {} && s.receipt.status.Uninstalled? && s.control.Stopped?
  }

  lemma UninstallBegun(r: Run, pid: Pid) returns (next: Run)
    requires IsRun(r) && AtTheTop(r.state, pid, Succeeded)
    ensures IsRun(next) && AtTheTop(next.state, pid, Uninstalling)
  {
    next := Did(r, pid, TeardownAuthority);
    next := SavedNext(next, pid, BeginUninstall);
  }

  lemma WentDown(r: Run, pid: Pid) returns (next: Run)
    requires IsRun(r) && AtTheTop(r.state, pid, Uninstalling)
    ensures IsRun(next) && next.state == r.state.(control := ControlPlane.Stopped, database := false, done := {Down})
  {
    next := Did(r, pid, Down);
  }

  lemma UninstallFinished(r: Run, pid: Pid) returns (next: Run)
    requires IsRun(r) && AtTheTop(r.state.(done := {}), pid, Uninstalling)
    requires Down in r.state.done && r.state.control.Stopped?
    ensures IsRun(next) && Resting(next.state, pid)
  {
    ProjectRecorded(r);
    next := SavedNext(r, pid, FinishUninstall);
  }

  lemma ProjectRecorded(r: Run)
    requires IsRun(r) && |r.state.receipt.completed| == STAGE_COUNT
    ensures ComposeProject in r.state.receipt.created
  {
    RunInv(r);
  }

  lemma CheckFailed(r: Run, pid: Pid, stage: Stage) returns (next: Run)
    requires IsRun(r) && Resting(r.state, pid)
    ensures IsRun(next) && Stuck(next.state)
  {
    RestingFacts(r, pid);
    next := SavedNext(r, pid, Fail(stage));
  }

  lemma RestingFacts(r: Run, pid: Pid)
    requires IsRun(r) && Resting(r.state, pid)
    ensures |r.state.receipt.completed| == STAGE_COUNT && r.state.receipt.removed == {ComposeProject}
    ensures !HasActiveUpdate(r.state.receipt)
  {
    RunInv(r);
  }

  /** The state no command can leave is reachable from every accepted plan: install,
      uninstall, and a resume that records a failed check. */
  lemma StuckReachable(plan: Plan, pid: Pid, stage: Stage) returns (r: Run)
    requires |plan.history| == 1 && plan.history[0].release == plan.release
    ensures IsRun(r) && Stuck(r.state)
  {
    r := InstalledRun(plan, pid);
    r := UninstallBegun(r, pid);
    r := WentDown(r, pid);
    r := UninstallFinished(r, pid);
    r := CheckFailed(r, pid, stage);
  }
}
