/** `secondbox-deploy install --resume`, ordinary uninstall, Compose recovery and
    tenancy bootstrap (cmd/secondbox-deploy/installer_resume.go, tenancy_command.go),
    with the privileged host-apply helper (internal/install/host_apply.go). */
module InstallerCommands {
  import opened Outcome
  import opened InstallReceipt
  import opened Protocol
  import opened ProtocolSafety
  import opened ProtocolTheorems
  import opened Deployment

  /** A locked part of a command returned, or died and lost the lock. */
  ghost predicate Returned(h: Host, me: Pid, r: Reply)
    reads h
  {
    h.Valid() && (r.Died? ==> h.state.lock != Some(me)) && (r.Alive? ==> h.state.lock == Some(me))
  }

  /** The in-memory pair is durable with its first `completed` stages recorded. */
  predicate Climbing(s: State, me: Pid, plan: Plan, receipt: Receipt, completed: nat) {
    && s.lock == Some(me) && s.files.Tidy? && s.plan == plan && s.receipt == receipt
    && !HasActiveUpdate(receipt) && (receipt.status.Running? || receipt.status.Failed?)
    && |receipt.completed| == completed
  }

  predicate Installed(s: State, me: Pid, plan: Plan) {
    && s.lock == Some(me) && s.files.Tidy? && s.plan == plan
    && s.receipt.status.Succeeded? && |s.receipt.completed| == STAGE_COUNT && !HasActiveUpdate(s.receipt)
  }

  // ---- Saving ----

  /** `markResumeFailure`: the command fails whether or not the save succeeds. */
  method MarkFailure(h: Host, me: Pid, receipt: Receipt, stage: Stage) returns (r: Reply)
    requires h.Valid() && h.state.lock == Some(me) && h.state.files.Tidy? && h.state.receipt == receipt
    requires !HasActiveUpdate(receipt) && !PurgeStarted(receipt) && !receipt.status.Uninstalling?
    requires |receipt.completed| >= 3
    modifies h`state, h`run, h`faults, h`saves
    ensures Returned(h, me, r) && r != Alive(true) && h.faults >= old(h.faults)
  {
    var _ :- h.SaveReceipt(me, FailStage(receipt, stage), Protocol.Fail(stage));
    return Alive(false);
  }

  /** The next stage can always be recorded. */
  lemma NextStage(r: Run, stage: Stage)
    requires IsRun(r) && LadderAt(r.state, stage)
    requires stage.AssetsMaterialized? ==> MATERIALIZED <= r.state.receipt.created
    ensures var next := ApplyOp(r.state.plan, r.state.receipt, Complete(stage));
            && next.Some? && |next.value.completed| == Rank(stage) + 1 && next.value.updates == r.state.receipt.updates
            && next.value.status == (if stage.SmokeExecution? then Succeeded else Running)
            && next.value.created == r.state.receipt.created + StageResources(stage)
            && next.value.pending == r.state.receipt.pending
  {
    RunInv(r);
    StageCompleted(r.state.plan, r.state.receipt, stage);
  }

  method Record(h: Host, me: Pid, plan: Plan, receipt: Receipt, stage: Stage) returns (r: Reply, next: Receipt)
    requires h.Valid() && Climbing(h.state, me, plan, receipt, Rank(stage)) && StageDeeds(plan, stage) <= h.state.done
    requires stage.AssetsMaterialized? ==> MATERIALIZED <= receipt.created
    modifies h`state, h`run, h`faults, h`saves
    ensures Returned(h, me, r)
    ensures next.created == receipt.created + StageResources(stage) && next.pending == receipt.pending
    ensures r == Alive(true) && !stage.SmokeExecution? ==> Climbing(h.state, me, plan, next, Rank(stage) + 1)
    ensures r == Alive(true) && stage.SmokeExecution? ==> Installed(h.state, me, plan)
    ensures h.faults == old(h.faults) + (if r == Alive(true) then 0 else 1)
    ensures h.saves == old(h.saves) + (if r == Alive(true) then 1 else 0)
  {
    NextStage(h.run, stage);
    next := ApplyOp(plan, receipt, Complete(stage)).value;
    r := h.SaveReceipt(me, next, Complete(stage));
  }

  // ---- The install ladder ----

  /** A stage with one effect. */
  method Perform(h: Host, me: Pid, plan: Plan, receipt: Receipt, stage: Stage, deed: Deed)
    returns (r: Reply, next: Receipt)
    requires h.Valid() && Climbing(h.state, me, plan, receipt, Rank(stage)) && DeedAllowed(h.state, me, deed)
    requires StageDeeds(plan, stage) == {deed} && !stage.AssetsMaterialized? && Rank(stage) >= 3
    modifies h`state, h`run, h`faults, h`saves
    ensures Returned(h, me, r)
    ensures r == Alive(true) && !stage.SmokeExecution? ==> Climbing(h.state, me, plan, next, Rank(stage) + 1)
    ensures r == Alive(true) && stage.SmokeExecution? ==> Installed(h.state, me, plan)
    ensures h.faults >= old(h.faults) && (r == Alive(true) <==> h.faults == old(h.faults))
    ensures r == Alive(true) ==> h.saves == old(h.saves) + 1
  {
    next := receipt;
    var ok :- h.Do(me, deed);
    if !ok { r := MarkFailure(h, me, receipt, stage); return; }
    r, next := Record(h, me, plan, receipt, stage);
  }

  /** Saves a resource of the release still needs: its intent and its record. */
  function ResourceSaves(r: Receipt, resource: Resource): nat {
    if resource in r.created then 0 else if resource in r.pending then 1 else 2
  }

  /** The extra saves before the assets stage. */
  function Unpublished(r: Receipt): nat {
    if |r.completed| > Rank(AssetsMaterialized) then 0
    else ResourceSaves(r, Artifacts) + ResourceSaves(r, ClientBinary) + ResourceSaves(r, DeployBinary)
  }

  /** `MaterializeRelease`: every resource is recorded before the stage. */
  method MaterializeRelease(h: Host, me: Pid, plan: Plan, receipt: Receipt) returns (r: Reply, next: Receipt)
    requires h.Valid() && Climbing(h.state, me, plan, receipt, |receipt.completed|) && 3 <= |receipt.completed| <= 4
    modifies h`state, h`run, h`faults, h`saves
    ensures Returned(h, me, r)
    ensures r == Alive(true) ==> Climbing(h.state, me, plan, next, 5)
    ensures h.faults >= old(h.faults) && (r == Alive(true) <==> h.faults == old(h.faults))
    ensures r == Alive(true) ==> h.saves == old(h.saves) + 5 - |receipt.completed| + Unpublished(receipt)
  {
    next := receipt;
    var ok :- h.Inspect(me);
    if !ok { r := MarkFailure(h, me, receipt, ReleaseVerified); return; }
    if |receipt.completed| == 3 {
      r, next := Record(h, me, plan, receipt, ReleaseVerified);
      if r != Alive(true) { return; }
    }
    r, next := MaterializeAssets(h, me, plan, next);
  }

  method MaterializeAssets(h: Host, me: Pid, plan: Plan, receipt: Receipt) returns (r: Reply, next: Receipt)
    requires h.Valid() && Climbing(h.state, me, plan, receipt, 4)
    modifies h`state, h`run, h`faults, h`saves
    ensures Returned(h, me, r)
    ensures r == Alive(true) ==> Climbing(h.state, me, plan, next, 5)
    ensures h.faults >= old(h.faults) && (r == Alive(true) <==> h.faults == old(h.faults))
    ensures r == Alive(true) ==> h.saves == old(h.saves) + 1 + Unpublished(receipt)
  {
    r, next := PublishResource(h, me, plan, receipt, Artifacts);
    if r != Alive(true) { return; }
    r, next := PublishResource(h, me, plan, next, ClientBinary);
    if r != Alive(true) { return; }
    r, next := PublishResource(h, me, plan, next, DeployBinary);
    if r != Alive(true) { return; }
    r, next := Record(h, me, plan, next, AssetsMaterialized);
  }

  /** Write-ahead publication: journal the intent, publish or adopt what an earlier
      attempt with that intent published, record the resource. */
  method PublishResource(h: Host, me: Pid, plan: Plan, receipt: Receipt, resource: Resource)
    returns (r: Reply, next: Receipt)
    requires h.Valid() && Climbing(h.state, me, plan, receipt, 4) && resource in MATERIALIZED
    modifies h`state, h`run, h`faults, h`saves
    ensures Returned(h, me, r)
    ensures r == Alive(true) ==> Climbing(h.state, me, plan, next, 4) && Published(receipt, next, resource)
    ensures h.faults >= old(h.faults) && (r == Alive(true) <==> h.faults == old(h.faults))
    ensures r == Alive(true) ==> h.saves == old(h.saves) + ResourceSaves(receipt, resource)
  {
    next := receipt;
    if resource in receipt.created { r := CheckRecorded(h, me, plan, receipt, resource); return; }
    Unrecorded(h.run, resource);
    if resource !in receipt.pending {
      r, next := Intend(h, me, plan, receipt, resource);
      if r != Alive(true) { return; }
    }
    r, next := PublishIntended(h, me, plan, next, resource);
  }

  /** A recorded resource must still be what was recorded. */
  method CheckRecorded(h: Host, me: Pid, plan: Plan, receipt: Receipt, ghost resource: Resource) returns (r: Reply)
    requires h.Valid() && Climbing(h.state, me, plan, receipt, 4) && resource in receipt.created
    modifies h`state, h`run, h`faults, h`saves
    ensures Returned(h, me, r)
    ensures r == Alive(true) ==> Climbing(h.state, me, plan, receipt, 4) && Published(receipt, receipt, resource)
    ensures h.faults >= old(h.faults) && (r == Alive(true) <==> h.faults == old(h.faults))
    ensures r == Alive(true) ==> h.saves == old(h.saves)
  {
    Disjoint(h.run);
    r := h.Inspect(me);
    if r == Alive(false) { r := MarkFailure(h, me, receipt, AssetsMaterialized); }
  }

  lemma Disjoint(r: Run)
    requires IsRun(r)
    ensures r.state.receipt.pending !! r.state.receipt.created
  {
    RunInv(r);
  }

  /** Journals the intent to publish. */
  method Intend(h: Host, me: Pid, plan: Plan, receipt: Receipt, resource: Resource) returns (r: Reply, next: Receipt)
    requires h.Valid() && Climbing(h.state, me, plan, receipt, 4) && resource in MATERIALIZED
    requires resource !in receipt.created + receipt.removed
    modifies h`state, h`run, h`faults, h`saves
    ensures Returned(h, me, r) && next == receipt.(pending := receipt.pending + {resource})
    ensures r == Alive(true) ==> Climbing(h.state, me, plan, next, 4)
    ensures h.faults >= old(h.faults) && (r == Alive(true) <==> h.faults == old(h.faults))
    ensures r == Alive(true) ==> h.saves == old(h.saves) + 1
  {
    next := BeginResource(receipt, resource).value;
    r := h.SaveReceipt(me, next, IntendResource(resource));
  }

  /** Exactly this resource is now recorded, and no intent for it is left. */
  predicate Published(r: Receipt, r': Receipt, resource: Resource) {
    r'.created == r.created + {resource} && r'.pending == r.pending - {resource}
  }

  method PublishIntended(h: Host, me: Pid, plan: Plan, receipt: Receipt, resource: Resource)
    returns (r: Reply, next: Receipt)
    requires h.Valid() && Climbing(h.state, me, plan, receipt, 4) && resource in receipt.pending
    requires resource !in receipt.created + receipt.removed
    modifies h`state, h`run, h`faults, h`saves
    ensures Returned(h, me, r)
    ensures r == Alive(true) ==> Climbing(h.state, me, plan, next, 4) && Published(receipt, next, resource)
    ensures h.faults >= old(h.faults) && (r == Alive(true) <==> h.faults == old(h.faults))
    ensures r == Alive(true) ==> h.saves == old(h.saves) + 1
  {
    next := receipt;
    var ok :- h.Do(me, Publish(resource));
    if !ok { r := MarkFailure(h, me, receipt, AssetsMaterialized); return; }
    next := CompleteResource(receipt, resource).value;
    r := h.SaveReceipt(me, next, RecordResource(resource));
  }

  lemma Unrecorded(r: Run, resource: Resource)
    requires IsRun(r) && resource !in r.state.receipt.created
    ensures resource !in r.state.receipt.removed
  {
    RunInv(r);
  }

  method StartCompose(h: Host, me: Pid, plan: Plan, receipt: Receipt) returns (r: Reply, next: Receipt)
    requires h.Valid() && Climbing(h.state, me, plan, receipt, 7)
    modifies h`state, h`run, h`faults, h`saves
    ensures Returned(h, me, r)
    ensures r == Alive(true) ==> Climbing(h.state, me, plan, next, 8)
    ensures h.faults >= old(h.faults) && (r == Alive(true) <==> h.faults == old(h.faults))
    ensures r == Alive(true) ==> h.saves == old(h.saves) + 1
  {
    next := receipt;
    var ok :- h.Do(me, Prepare);
    if !ok { r := MarkFailure(h, me, receipt, ComposeStarted); return; }
    ok :- h.Do(me, Up);
    if !ok { r := MarkFailure(h, me, receipt, ComposeStarted); return; }
    r, next := Record(h, me, plan, receipt, ComposeStarted);
  }

  /** The ladder from host apply on: without a fault it records every missing
      stage, each by its own save. */
  method Climb(h: Host, me: Pid, plan: Plan, receipt: Receipt) returns (r: Reply)
    requires h.Valid() && Climbing(h.state, me, plan, receipt, |receipt.completed|)
             && 3 <= |receipt.completed| < STAGE_COUNT
    modifies h`state, h`run, h`faults, h`saves
    ensures Returned(h, me, r)
    ensures r == Alive(true) ==> Installed(h.state, me, plan)
    ensures h.faults >= old(h.faults) && (r == Alive(true) <==> h.faults == old(h.faults))
    ensures r == Alive(true) ==> h.saves == old(h.saves) + STAGE_COUNT - |receipt.completed| + Unpublished(receipt)
  {
    var current := receipt;
    if |current.completed| <= 4 {
      r, current := MaterializeRelease(h, me, plan, current);
      if r != Alive(true) { return; }
    }
    if |current.completed| == 5 {
      r, current := Perform(h, me, plan, current, DeploymentMaterialized, Initialize);
      if r != Alive(true) { return; }
    }
    if |current.completed| == 6 {
      r, current := Perform(h, me, plan, current, RunnerEnrolled, Enroll);
      if r != Alive(true) { return; }
    }
    if |current.completed| == 7 {
      r, current := StartCompose(h, me, plan, current);
      if r != Alive(true) { return; }
    }
    r := Qualify(h, me, plan, current);
  }

  /** The stages that need the running control plane. */
  method Qualify(h: Host, me: Pid, plan: Plan, receipt: Receipt) returns (r: Reply)
    requires h.Valid() && Climbing(h.state, me, plan, receipt, |receipt.completed|)
             && 8 <= |receipt.completed| < STAGE_COUNT
    modifies h`state, h`run, h`faults, h`saves
    ensures Returned(h, me, r)
    ensures r == Alive(true) ==> Installed(h.state, me, plan)
    ensures h.faults >= old(h.faults) && (r == Alive(true) <==> h.faults == old(h.faults))
    ensures r == Alive(true) ==> h.saves == old(h.saves) + STAGE_COUNT - |receipt.completed|
  {
    var current := receipt;
    if |current.completed| == 8 {
      r, current := Perform(h, me, plan, current, CLILogin, Login);
      if r != Alive(true) { return; }
    }
    if |current.completed| == 9 {
      r, current := Perform(h, me, plan, current, Readiness, ProveReady);
      if r != Alive(true) { return; }
    }
    r := BootstrapAndSmoke(h, me, plan, current);
  }

  method BootstrapAndSmoke(h: Host, me: Pid, plan: Plan, receipt: Receipt) returns (r: Reply)
    requires h.Valid() && Climbing(h.state, me, plan, receipt, |receipt.completed|)
    requires 10 <= |receipt.completed| < STAGE_COUNT
    modifies h`state, h`run, h`faults, h`saves
    ensures Returned(h, me, r)
    ensures r == Alive(true) ==> Installed(h.state, me, plan)
    ensures h.faults >= old(h.faults) && (r == Alive(true) <==> h.faults == old(h.faults))
    ensures r == Alive(true) ==> h.saves == old(h.saves) + STAGE_COUNT - |receipt.completed|
  {
    var current := receipt;
    if |current.completed| == 10 {
      r, current := BootstrapStage(h, me, plan, current);
      if r != Alive(true) { return; }
    }
    r, current := Perform(h, me, plan, current, SmokeExecution, Smoke);
  }

  method BootstrapStage(h: Host, me: Pid, plan: Plan, receipt: Receipt) returns (r: Reply, next: Receipt)
    requires h.Valid() && Climbing(h.state, me, plan, receipt, 10)
    modifies h`state, h`run, h`faults, h`saves
    ensures Returned(h, me, r)
    ensures r == Alive(true) ==> Climbing(h.state, me, plan, next, 11)
    ensures h.faults >= old(h.faults) && (r == Alive(true) <==> h.faults == old(h.faults))
    ensures r == Alive(true) ==> h.saves == old(h.saves) + 1
  {
    if plan.tenancy {
      r, next := Perform(h, me, plan, receipt, TenancyBootstrap, Tenancy);
    } else {
      r, next := Record(h, me, plan, receipt, TenancyBootstrap);
    }
  }

  // ---- Resume under the lock ----

  /** Finishes an uninstall that was already journaled. */
  method FinishUninstalling(h: Host, me: Pid, plan: Plan, receipt: Receipt) returns (r: Reply)
    requires h.Valid() && h.Synced(me, plan, receipt) && receipt.status.Uninstalling?
    modifies h`state, h`run, h`faults, h`saves
    ensures Returned(h, me, r)
    ensures r == Alive(true) ==> Stopped(h.state, plan)
    ensures h.faults >= old(h.faults) && (r == Alive(true) <==> h.faults == old(h.faults))
    ensures r == Alive(true) ==> h.saves == old(h.saves) + 1
  {
    UninstallingFacts(h.run);
    var ok :- h.Do(me, Down);
    if !ok { return Alive(false); }
    var next := ApplyOp(plan, receipt, FinishUninstall).value;
    r := h.SaveReceipt(me, next, FinishUninstall);
  }

  /** Ordinarily uninstalled, with the Compose project recorded as removed. */
  predicate Stopped(s: State, plan: Plan) {
    s.files.Tidy? && s.plan == plan && s.receipt.status.Uninstalled? && ComposeProject in s.receipt.removed
  }

  lemma UninstallingFacts(r: Run)
    requires IsRun(r) && r.state.receipt.status.Uninstalling?
    ensures !HasActiveUpdate(r.state.receipt) && ApplyOp(r.state.plan, r.state.receipt, FinishUninstall).Some?
  {
    RunInv(r);
    UninstallFinishes(r.state.plan, r.state.receipt);
  }

  lemma UninstallFinishes(p: Plan, r: Receipt)
    requires InstallCoherent(r) && r.status.Uninstalling?
    ensures ApplyOp(p, r, FinishUninstall).Some?
  {
    EndsComplete(r);
  }

  lemma EndsComplete(r: Receipt)
    requires StatusCoherent(r) && |r.completed| == STAGE_COUNT
    ensures EndsInSmoke(r)
  {
    assert Rank(r.completed[11]) == 11;
  }

  /** Restarts an ordinarily uninstalled deployment and records it as succeeded. */
  method RestoreDeployment(h: Host, me: Pid, plan: Plan, receipt: Receipt) returns (r: Reply)
    requires h.Valid() && h.Synced(me, plan, receipt) && receipt.status.Uninstalled? && !HasActiveUpdate(receipt)
    requires EndsInSmoke(receipt) && |receipt.completed| == STAGE_COUNT
    modifies h`state, h`run, h`faults, h`saves
    ensures Returned(h, me, r)
    ensures r == Alive(true) ==> Installed(h.state, me, plan) && ComposeProject !in h.state.receipt.removed
    ensures h.faults >= old(h.faults) && (r == Alive(true) <==> h.faults == old(h.faults))
    ensures r == Alive(true) ==> h.saves == old(h.saves) + 1
  {
    var ok :- h.Do(me, Prepare);
    if !ok { return Alive(false); }
    ok :- h.Do(me, Up);
    if !ok { return Alive(false); }
    ok :- h.Do(me, ProveReady);
    if !ok { return Alive(false); }
    r := h.SaveReceipt(me, RestoreSucceeded(receipt).value, Restore);
  }

  /** A completed installation is proved ready; a failed one is recovered. */
  method ReproveReady(h: Host, me: Pid, plan: Plan, receipt: Receipt) returns (r: Reply)
    requires h.Valid() && h.Synced(me, plan, receipt) && (receipt.status.Succeeded? || receipt.status.Failed?)
             && !HasActiveUpdate(receipt)
    requires EndsInSmoke(receipt) && |receipt.completed| == STAGE_COUNT
    modifies h`state, h`run, h`faults, h`saves
    ensures Returned(h, me, r)
    ensures r == Alive(true) ==> Installed(h.state, me, plan)
    ensures h.faults >= old(h.faults) && (r == Alive(true) <==> h.faults == old(h.faults))
    ensures r == Alive(true) ==> h.saves == old(h.saves) + (if receipt.status.Failed? then 1 else 0)
  {
    var ok :- h.Do(me, ProveReady);
    if !ok { r := MarkFailure(h, me, receipt, Readiness); return; }
    if receipt.status.Succeeded? { return Alive(true); }
    r := h.SaveReceipt(me, RecoverSucceeded(receipt).value, Recover);
  }

  /** Which receipts `install --resume` takes on, and where it leaves them. */
  predicate Resumable(r: Receipt) {
    !HasActiveUpdate(r) && !PurgeStarted(r)
  }

  lemma ResumableFacts(r: Run)
    requires IsRun(r) && Resumable(r.state.receipt)
    ensures var x := r.state.receipt;
            && (x.status.Running? ==> |x.completed| < STAGE_COUNT)
            && (!x.status.Running? && !x.status.Failed? ==> |x.completed| == STAGE_COUNT)
            && (|x.completed| == STAGE_COUNT ==> EndsInSmoke(x)) && |x.completed| <= STAGE_COUNT && !x.status.Planned?
  {
    RunInv(r);
    if |r.state.receipt.completed| == STAGE_COUNT { EndsComplete(r.state.receipt); }
  }

  /** What the pair says decides which of the four continuations runs. */
  method ContinueInstall(h: Host, me: Pid, plan: Plan, receipt: Receipt) returns (r: Reply)
    requires h.Valid() && h.Synced(me, plan, receipt) && Resumable(receipt) && !receipt.status.Uninstalling?
    requires |receipt.completed| >= 3
    modifies h`state, h`run, h`faults, h`saves
    ensures Returned(h, me, r)
    ensures r == Alive(true) ==> Installed(h.state, me, plan)
    ensures h.faults >= old(h.faults) && (r == Alive(true) <==> h.faults == old(h.faults))
    ensures r == Alive(true) ==> h.saves == old(h.saves) + MissingSaves(receipt)
  {
    ResumableFacts(h.run);
    if receipt.status.Uninstalled? {
      r := RestoreDeployment(h, me, plan, receipt);
    } else if |receipt.completed| == STAGE_COUNT {
      r := ReproveReady(h, me, plan, receipt);
    } else {
      r := Climb(h, me, plan, receipt);
    }
  }

  /** Saves one resume without a fault makes: one for every missing stage, one
      for artifacts not yet recorded, one for a changed status. */
  function MissingSaves(r: Receipt): int {
    if |r.completed| < STAGE_COUNT then STAGE_COUNT - |r.completed| + Unpublished(r)
    else if r.status.Succeeded? then 0 else 1
  }

  /** Everything `runInstallResumeWith` does while it holds the lock. */
  method ResumeInstallLocked(h: Host, me: Pid) returns (r: Reply)
    requires h.Valid() && h.state.lock == Some(me) && HostApplied(h.state) && me in h.state.passed
    modifies h`state, h`run, h`faults, h`saves
    ensures Returned(h, me, r)
    ensures r == Alive(true) ==> Resumed(old(h.state), me, h.state)
    ensures h.faults >= old(h.faults)
    ensures h.faults == old(h.faults) ==>
              (r == Alive(true) <==> !old(h.state.files).Lost? && Resumable(old(h.state.receipt)))
    ensures r == Alive(true) ==> Resumable(old(h.state.receipt)) && h.faults == old(h.faults)
    ensures r == Alive(true) ==> h.saves == old(h.saves) + MissingSaves(old(h.state.receipt))
    ensures !Resumable(old(h.state.receipt)) && r.Alive? ==> Reread(old(h.state), h.state)
  {
    var readable, plan, receipt :- h.RecoverOperation(me, false);
    if !readable || !Resumable(receipt) { return Alive(false); }
    if receipt.status.Uninstalling? { r := ResumeUninstalling(h, me, plan, receipt); return; }
    r := CheckInstall(h, me, plan, receipt);
    if r != Alive(true) { return; }
    r := ContinueInstall(h, me, plan, receipt);
  }

  /** Host, release and authority are checked again before anything continues. */
  method CheckInstall(h: Host, me: Pid, plan: Plan, receipt: Receipt) returns (r: Reply)
    requires h.Valid() && h.Synced(me, plan, receipt) && Resumable(receipt) && !receipt.status.Uninstalling?
    requires |receipt.completed| >= 3
    modifies h`state, h`run, h`faults, h`saves
    ensures Returned(h, me, r) && (r == Alive(true) ==> h.Synced(me, plan, receipt) && h.saves == old(h.saves))
    ensures h.faults >= old(h.faults) && (r == Alive(true) <==> h.faults == old(h.faults))
  {
    var ok :- h.Inspect(me);
    if !ok { r := MarkFailure(h, me, receipt, HostApply); return; }
    ok :- h.Inspect(me);
    if !ok { r := MarkFailure(h, me, receipt, ReleaseVerified); return; }
    ok :- h.Inspect(me);
    if !ok { r := MarkFailure(h, me, receipt, receipt.completed[|receipt.completed| - 1]); return; }
    r := Alive(true);
  }

  method ResumeUninstalling(h: Host, me: Pid, plan: Plan, receipt: Receipt) returns (r: Reply)
    requires h.Valid() && h.Synced(me, plan, receipt) && receipt.status.Uninstalling? && Resumable(receipt)
    modifies h`state, h`run, h`faults, h`saves
    ensures Returned(h, me, r)
    ensures r == Alive(true) ==> Stopped(h.state, plan)
    ensures h.faults >= old(h.faults) && (r == Alive(true) <==> h.faults == old(h.faults))
    ensures r == Alive(true) ==> h.saves == old(h.saves) + MissingSaves(receipt)
  {
    ResumableFacts(h.run);
    var ok :- h.Inspect(me);
    if !ok { return Alive(false); }
    r := FinishUninstalling(h, me, plan, receipt);
  }

  // ---- The privileged host-apply helper ----

  /** `ApplyHost` under the helper's own lock. A save that fails without saying
      what it left is answered by writing back the receipt from before the stage,
      if this attempt created anything. Without a fault the helper succeeds exactly
      when the accepted plan is the one on disk. */
  method ApplyHostLocked(h: Host, me: Pid, accepted: Plan) returns (r: Reply)
    requires h.Valid() && h.state.lock == Some(me) && h.state.done == {}
    modifies h`state, h`run, h`faults, h`saves
    ensures Returned(h, me, r) && (me in old(h.state.passed) ==> me in h.state.passed)
    ensures r == Alive(true) ==> HostApplied(h.state) && h.faults == old(h.faults)
    ensures h.faults >= old(h.faults)
    ensures h.faults == old(h.faults) ==> (r == Alive(true) <==> Shows(old(h.state), accepted))
  {
    HostApplyReadable(h.run);
    var readable, receipt :- h.ReadHostApply(me, accepted);
    if !readable { return Alive(false); }
    var ok :- h.Inspect(me);
    if !ok { return Alive(false); }
    if |receipt.completed| > 2 { return Alive(true); }
    AcceptedPlan(h.run);
    ok :- h.Do(me, HostChanges);
    if !ok { return Alive(false); }
    r := CompleteHostApply(h, me, accepted, receipt);
  }

  /** Two completed stages always mean Running, so the helper's demand for that is
      never what refuses. */
  lemma HostApplyReadable(r: Run)
    requires IsRun(r)
    ensures AtHostApply(r.state.receipt)
  {
    RunInv(r);
  }

  lemma AcceptedPlan(r: Run)
    requires IsRun(r) && |r.state.receipt.completed| <= 2
    ensures var x := r.state.receipt;
            && |x.completed| == 2 && !HasActiveUpdate(x) && x.status.Running? && x.failure.None? && r.state.files.Tidy?
  {
    RunInv(r);
  }

  method CompleteHostApply(h: Host, me: Pid, plan: Plan, receipt: Receipt) returns (r: Reply)
    requires h.Valid() && Climbing(h.state, me, plan, receipt, 2) && h.state.done == {HostChanges}
    requires receipt.status.Running? && receipt.failure.None?
    modifies h`state, h`run, h`faults, h`saves
    ensures Returned(h, me, r) && (me in old(h.state.passed) ==> me in h.state.passed)
    ensures r == Alive(true) ==> HostApplied(h.state)
    ensures h.faults >= old(h.faults) && (r == Alive(true) <==> h.faults == old(h.faults))
  {
    NextStage(h.run, HostApply);
    var next := ApplyOp(plan, receipt, Complete(HostApply)).value;
    r := h.SaveReceipt(me, next, Complete(HostApply));
    var created: bool := *;
    if r == Alive(false) && created {
      RollBackRestores(plan, receipt, next);
      r := h.SaveReceipt(me, receipt, RollBackHostApply);
      if r.Alive? { r := Alive(false); }
    }
  }

  /** Whichever receipt the failed save left, rolling back writes the old one. */
  lemma RollBackRestores(p: Plan, r: Receipt, next: Receipt)
    requires |r.completed| == 2 && r.status.Running? && r.failure.None?
    requires ApplyOp(p, r, Complete(HostApply)) == Some(next)
    ensures ApplyOp(p, r, RollBackHostApply) == Some(r)
    ensures ApplyOp(p, next, RollBackHostApply) == Some(r)
    ensures next.completed == r.completed + [HostApply] && next.status.Running? && next.updates == r.updates
  {
    assert r.completed[..2] == r.completed;
    assert (r.completed + [HostApply])[..2] == r.completed;
    assert r.created + {} == r.created;
  }

  // ---- Whole commands ----

  /** `at` is the moment at which the helper took its lock. */
  method ApplyHost(h: Host, me: Pid, accepted: Plan) returns (r: Reply, ghost at: Run)
    requires h.Valid() && h.state.lock != Some(me)
    modifies h`state, h`run, h`faults, h`saves, h`marks
    ensures h.Valid() && h.state.lock != Some(me) && (me in old(h.state.passed) ==> me in h.state.passed)
    ensures Continues(old(h.run), at) && Continues(at, h.run) && old(h.marks) + {at} <= h.marks
    ensures r == Alive(true) ==> HostApplied(h.state) && h.faults == old(h.faults)
    ensures h.faults >= old(h.faults)
    ensures h.faults == old(h.faults) ==>
              EndsIn(at, Acquire(me)) && (r == Alive(true) <==> Shows(at.state, accepted))
  {
    r, at := h.StartWindow(me);
    if r != Alive(true) { return; }
    r := ApplyHostLocked(h, me, accepted);
    if r.Alive? { h.CloseLock(me); }
  }

  /** The moments at which a command looked: at its read-only opening, when the
      privileged helper looked, when the command took the lock, and when its locked
      part ended. One that was not reached is the last one that was. */
  datatype Looks = Looks(opening: Run, helper: Run, locked: Run, ended: Run)

  /** They are moments of one run, in this order. */
  ghost predicate InTurn(start: Run, k: Looks, end: Run) {
    && Continues(start, k.opening) && Continues(k.opening, k.helper) && Continues(k.helper, k.locked)
    && Continues(k.locked, k.ended) && Continues(k.ended, end)
  }

  /** The helper is skipped while a teardown is journaled. */
  predicate NeedsHelper(r: Receipt) {
    !PurgeStarted(r) && !r.status.Uninstalling?
  }

  predicate ResumeOpens(s: State) {
    s.files.Tidy? && !HasActiveUpdate(s.receipt)
  }

  predicate HostReady(k: Looks) {
    NeedsHelper(k.opening.state.receipt) ==> Shows(k.helper.state, k.opening.state.plan)
  }

  /** Without a fault each moment was reached, by its own event, as far as the ones
      before it allow. */
  predicate ResumeReached(k: Looks, me: Pid) {
    && (k.opening.state.files.Tidy? ==> EndsIn(k.opening, Open(me)))
    && (ResumeOpens(k.opening.state) && NeedsHelper(k.opening.state.receipt) ==> EndsIn(k.helper, Acquire(me)))
    && (ResumeOpens(k.opening.state) && HostReady(k) ==> EndsIn(k.locked, Acquire(me)))
  }

  predicate ResumeGoesThrough(k: Looks) {
    && ResumeOpens(k.opening.state) && HostReady(k)
    && !k.locked.state.files.Lost? && Resumable(k.locked.state.receipt)
  }

  /** `runInstallResumeWith`: the unlocked read only decides whether the helper
      runs; what it leaves true is all the locked part needs. */
  method ResumeInstall(h: Host, me: Pid) returns (r: Reply, ghost k: Looks)
    requires h.Valid() && h.state.lock != Some(me)
    modifies h`state, h`run, h`faults, h`saves, h`marks
    ensures h.Valid() && h.state.lock != Some(me) && InTurn(old(h.run), k, h.run)
    ensures h.faults >= old(h.faults) && (r == Alive(true) ==> h.faults == old(h.faults))
    ensures h.faults == old(h.faults) ==> ResumeReached(k, me) && (r == Alive(true) <==> ResumeGoesThrough(k))
    ensures r == Alive(true) ==> Resumed(k.locked.state, me, k.ended.state) && EndsIn(h.run, Unlock(me))
  {
    var clean, plan, receipt, opening := h.StartCommand(me);
    k := Looks(opening, opening, opening, opening);
    if clean != Alive(true) { return clean, k; }
    if HasActiveUpdate(receipt) { return Alive(false), k; }
    if NeedsHelper(receipt) {
      ghost var at;
      r, at := ApplyHost(h, me, plan);
      k := Looks(opening, at, at, at);
      if r != Alive(true) { return; }
    } else {
      TornDownIsApplied(h.run);
    }
    ghost var locked, ended;
    r, locked, ended := ResumeApplied(h, me);
    k := k.(locked := locked, ended := ended);
  }

  /** A complete installation, or a finished uninstall if one was journaled. */
  predicate Resumed(s: State, me: Pid, s': State) {
    if s.receipt.status.Uninstalling? then Stopped(s', s.plan) else Installed(s', me, s.plan)
  }

  /** The lock window of a resume. */
  method ResumeApplied(h: Host, me: Pid) returns (r: Reply, ghost locked: Run, ghost ended: Run)
    requires h.Valid() && h.state.lock != Some(me) && HostApplied(h.state) && me in h.state.passed
    modifies h`state, h`run, h`faults, h`saves, h`marks
    ensures h.Valid() && h.state.lock != Some(me) && old(h.marks) <= h.marks
    ensures Continues(old(h.run), locked) && Continues(locked, ended) && Continues(ended, h.run)
    ensures forall mark :: mark in old(h.marks) ==> Continues(mark, locked)
    ensures h.faults >= old(h.faults) && (r == Alive(true) ==> h.faults == old(h.faults))
    ensures h.faults == old(h.faults) ==>
              && EndsIn(locked, Acquire(me))
              && (r == Alive(true) <==> !locked.state.files.Lost? && Resumable(locked.state.receipt))
    ensures r == Alive(true) ==> Resumed(locked.state, me, ended.state) && EndsIn(h.run, Unlock(me))
  {
    r, locked := h.StartWindow(me);
    ended := locked;
    if r != Alive(true) { return; }
    r := ResumeInstallLocked(h, me);
    h.Mark();
    ended := h.run;
    if r.Alive? { h.CloseLock(me); }
  }

  lemma TornDownIsApplied(r: Run)
    requires IsRun(r) && (PurgeStarted(r.state.receipt) || r.state.receipt.status.Uninstalling?)
    ensures HostApplied(r.state)
  {
    RunInv(r);
  }

  method UninstallLocked(h: Host, me: Pid) returns (r: Reply)
    requires h.Valid() && h.state.lock == Some(me)
    modifies h`state, h`run, h`faults, h`saves
    ensures Returned(h, me, r)
    ensures r == Alive(true) ==> Uninstallable(old(h.state.receipt)) && Stopped(h.state, old(h.state.plan))
    ensures r == Alive(true) ==> h.faults == old(h.faults)
    ensures h.faults >= old(h.faults)
    ensures h.faults == old(h.faults) ==>
              (r == Alive(true) <==> !old(h.state.files).Lost? && Uninstallable(old(h.state.receipt)))
    ensures h.faults == old(h.faults) && !old(h.state.files).Lost? ==> h.state.files.Tidy?
    ensures !Uninstallable(old(h.state.receipt)) && r.Alive? ==> Reread(old(h.state), h.state)
  {
    var readable, plan, receipt :- h.RecoverOperation(me, true);
    if !readable || HasActiveUpdate(receipt) { return Alive(false); }
    if receipt.status.Uninstalled? { UninstalledIsStopped(h.run); return Alive(true); }
    if !receipt.status.Succeeded? && !receipt.status.Uninstalling? { return Alive(false); }
    r := TearDown(h, me, plan, receipt);
  }

  method TearDown(h: Host, me: Pid, plan: Plan, receipt: Receipt) returns (r: Reply)
    requires h.Valid() && h.Synced(me, plan, receipt) && !HasActiveUpdate(receipt)
    requires receipt.status.Succeeded? || receipt.status.Uninstalling?
    modifies h`state, h`run, h`faults, h`saves
    ensures Returned(h, me, r)
    ensures r == Alive(true) ==> Stopped(h.state, plan)
    ensures h.faults >= old(h.faults) && (r == Alive(true) <==> h.faults == old(h.faults))
  {
    var ok :- h.Do(me, TeardownAuthority);
    if !ok { return Alive(false); }
    var current := receipt;
    if receipt.status.Succeeded? {
      ResumableFacts(h.run);
      current := MarkUninstalling(receipt).value;
      ok :- h.SaveReceipt(me, current, BeginUninstall);
      if !ok { return Alive(false); }
    }
    r := FinishUninstalling(h, me, plan, current);
  }

  predicate Uninstallable(r: Receipt) {
    !HasActiveUpdate(r) && (r.status.Succeeded? || r.status.Uninstalling? || r.status.Uninstalled?)
  }

  lemma UninstalledIsStopped(r: Run)
    requires IsRun(r) && r.state.receipt.status.Uninstalled?
    ensures ComposeProject in r.state.receipt.removed
  {
    RunInv(r);
  }

  /** `runInstallUninstallWith` starts with recovery, so it repairs a pending
      commit. `locked` and `ended` are the moments at which the lock was taken and
      the locked part ended. */
  method Uninstall(h: Host, me: Pid) returns (r: Reply, ghost locked: Run, ghost ended: Run)
    requires h.Valid() && h.state.lock != Some(me)
    modifies h`state, h`run, h`faults, h`saves, h`marks
    ensures h.Valid() && h.state.lock != Some(me)
    ensures Continues(old(h.run), locked) && Continues(locked, ended) && Continues(ended, h.run)
    ensures h.faults >= old(h.faults) && (r == Alive(true) ==> h.faults == old(h.faults))
    ensures h.faults == old(h.faults) ==>
              && EndsIn(locked, Acquire(me))
              && (r == Alive(true) <==> !locked.state.files.Lost? && Uninstallable(locked.state.receipt))
    ensures h.faults == old(h.faults) && !locked.state.files.Lost? ==> ended.state.files.Tidy?
    ensures r == Alive(true) ==> Stopped(ended.state, locked.state.plan) && EndsIn(h.run, Unlock(me))
  {
    r, locked := h.StartWindow(me);
    ended := locked;
    if r != Alive(true) { return; }
    r := UninstallLocked(h, me);
    h.Mark();
    ended := h.run;
    if r.Alive? { h.CloseLock(me); }
  }

  /** `runInstallSupport` starts with recovery too, and then only inspects. */
  method Support(h: Host, me: Pid) returns (r: Reply, ghost locked: Run, ghost ended: Run)
    requires h.Valid() && h.state.lock != Some(me)
    modifies h`state, h`run, h`faults, h`saves, h`marks
    ensures h.Valid() && h.state.lock != Some(me) && h.saves == old(h.saves)
    ensures Continues(old(h.run), locked) && Continues(locked, ended) && Continues(ended, h.run)
    ensures h.faults >= old(h.faults) && (r == Alive(true) ==> h.faults == old(h.faults))
    ensures h.faults == old(h.faults) ==> EndsIn(locked, Acquire(me)) && r == Alive(!locked.state.files.Lost?)
    ensures r == Alive(true) ==> ended.state.files.Tidy? && EndsIn(h.run, Unlock(me))
    ensures r.Alive? && EndsIn(locked, Acquire(me)) ==> Reread(locked.state, ended.state)
  {
    r, locked := h.StartWindow(me);
    ended := locked;
    if r != Alive(true) { return; }
    r := CollectEvidence(h, me);
    h.Mark();
    ended := h.run;
    if r.Alive? { h.CloseLock(me); }
  }

  method CollectEvidence(h: Host, me: Pid) returns (r: Reply)
    requires h.Valid() && h.state.lock == Some(me)
    modifies h`state, h`run, h`faults, h`saves
    ensures Returned(h, me, r) && h.saves == old(h.saves) && (r.Alive? ==> Reread(old(h.state), h.state))
    ensures h.faults >= old(h.faults) && (r == Alive(true) ==> h.faults == old(h.faults))
    ensures h.faults == old(h.faults) ==> r == Alive(!old(h.state.files).Lost?)
    ensures r == Alive(true) ==> h.state.files.Tidy?
  {
    var readable, _, _ :- h.RecoverOperation(me, true);
    if !readable { return Alive(false); }
    r := h.Inspect(me);
  }

  /** Compose recovery acts only on the plan its privileged verification saw. */
  method RecoverComposeLocked(h: Host, me: Pid, verified: Plan) returns (r: Reply)
    requires h.Valid() && h.state.lock == Some(me) && me in h.state.passed
    requires me in h.state.attested && h.state.attested[me] == verified
    modifies h`state, h`run, h`faults, h`saves
    ensures Returned(h, me, r)
    ensures r == Alive(true) ==> old(h.state.plan) == verified && GaveBack(old(h.state.receipt), h.state.receipt)
    ensures r == Alive(true) ==> h.faults == old(h.faults)
    ensures h.faults >= old(h.faults)
    ensures h.faults == old(h.faults) ==> (r == Alive(true) <==> RecoveryAdmitted(old(h.state), verified))
  {
    var found, receipt :- ReadPartialFailure(h, me, verified);
    if !found { return Alive(false); }
    var ok :- h.Do(me, TeardownAuthority);
    if !ok { return Alive(false); }
    r := StopPartialCompose(h, me, verified, receipt);
  }

  /** Recovers the operation and checks again what the opening saw. */
  method ReadPartialFailure(h: Host, me: Pid, verified: Plan) returns (r: Reply, receipt: Receipt)
    requires h.Valid() && h.state.lock == Some(me) && me in h.state.passed
    requires me in h.state.attested && h.state.attested[me] == verified
    modifies h`state, h`run, h`faults, h`saves
    ensures Returned(h, me, r) && h.faults >= old(h.faults) && (r == Alive(true) ==> h.faults == old(h.faults))
    ensures r == Alive(true) ==> h.Synced(me, verified, receipt) && old(h.state.plan) == verified
    ensures r == Alive(true) ==> receipt == old(h.state.receipt) && !HasActiveUpdate(receipt)
    ensures r == Alive(true) ==> me in h.state.attested && h.state.attested[me] == verified
    ensures h.faults == old(h.faults) ==>
              r == Alive(!old(h.state.files).Lost? && old(h.state.plan) == verified
                         && !HasActiveUpdate(old(h.state.receipt)) && PartialComposeFailure(old(h.state.receipt)))
  {
    var plan;
    r, plan, receipt := h.RecoverOperation(me, false);
    if r == Alive(true) && (HasActiveUpdate(receipt) || !PartialComposeFailure(receipt) || plan != verified) {
      r := Alive(false);
    }
  }

  predicate RecoveryAdmitted(s: State, verified: Plan) {
    !s.files.Lost? && s.plan == verified && ComposeRecoverable(s.receipt)
  }

  /** Exactly the stages from Compose startup on were given back. */
  predicate GaveBack(r: Receipt, r': Receipt) {
    && ComposeRecoverable(r) && r'.completed == r.completed[..7]
    && r'.status.Failed? && r'.failure == Some(ComposeStarted)
  }

  /** The retry is journaled before Compose goes down. */
  method StopPartialCompose(h: Host, me: Pid, plan: Plan, receipt: Receipt) returns (r: Reply)
    requires h.Valid() && h.Synced(me, plan, receipt) && !HasActiveUpdate(receipt)
    requires TeardownAuthority in h.state.done && me in h.state.attested && h.state.attested[me] == plan
    modifies h`state, h`run, h`faults, h`saves
    ensures Returned(h, me, r)
    ensures r == Alive(true) ==> GaveBack(receipt, h.state.receipt) && h.faults == old(h.faults)
    ensures h.faults >= old(h.faults)
    ensures h.faults == old(h.faults) ==> (r == Alive(true) <==> ComposeRecoverable(receipt))
  {
    RecoverableFacts(h.run);
    if PrepareComposeRetry(receipt).None? { return Alive(false); }
    var next := PrepareComposeRetry(receipt).value;
    var ok :- h.SaveReceipt(me, next, ComposeRetry);
    if !ok { return Alive(false); }
    r := h.Do(me, Down);
  }

  /** Failed at or after Compose startup, with nothing recorded as removed. */
  predicate ComposeRecoverable(r: Receipt) {
    !HasActiveUpdate(r) && PartialComposeFailure(r) && r.removed == {} && |r.completed| >= 7
  }

  lemma RecoverableFacts(r: Run)
    requires IsRun(r) && !HasActiveUpdate(r.state.receipt)
    ensures PrepareComposeRetry(r.state.receipt).Some? <==> ComposeRecoverable(r.state.receipt)
    ensures PrepareComposeRetry(r.state.receipt).Some? ==>
              GaveBack(r.state.receipt, PrepareComposeRetry(r.state.receipt).value)
    ensures PrepareComposeRetry(r.state.receipt).Some? ==>
              !HasActiveUpdate(PrepareComposeRetry(r.state.receipt).value)
  {
    RunCoherent(r);
    RetryExactly(r.state.receipt);
  }

  lemma RunCoherent(r: Run)
    requires IsRun(r)
    ensures InstallCoherent(r.state.receipt)
  {
    RunInv(r);
  }

  lemma RetryExactly(r: Receipt)
    requires InstallCoherent(r) && !HasActiveUpdate(r)
    ensures PrepareComposeRetry(r).Some? <==> ComposeRecoverable(r)
    ensures PrepareComposeRetry(r).Some? ==> GaveBack(r, PrepareComposeRetry(r).value)
    ensures PrepareComposeRetry(r).Some? ==> !HasActiveUpdate(PrepareComposeRetry(r).value)
  {
    assert |r.completed| > 0 ==> Rank(r.completed[|r.completed| - 1]) == |r.completed| - 1;
  }

  predicate RecoveryOpens(s: State) {
    s.files.Tidy? && !HasActiveUpdate(s.receipt) && PartialComposeFailure(s.receipt)
  }

  predicate HostVerified(k: Looks) {
    Verifies(k.helper.state, k.opening.state.plan)
  }

  /** As for a resume; here the helper's own event names the plan it saw. */
  predicate RecoveryReached(k: Looks, me: Pid) {
    && (k.opening.state.files.Tidy? ==> EndsIn(k.opening, Open(me)))
    && (RecoveryOpens(k.opening.state) && HostVerified(k) ==>
          EndsIn(k.helper, Attest(me, k.opening.state.plan)) && EndsIn(k.locked, Acquire(me)))
  }

  predicate RecoveryGoesThrough(k: Looks) {
    RecoveryOpens(k.opening.state) && HostVerified(k) && RecoveryAdmitted(k.locked.state, k.opening.state.plan)
  }

  method RecoverCompose(h: Host, me: Pid) returns (r: Reply, ghost k: Looks)
    requires h.Valid() && h.state.lock != Some(me)
    modifies h`state, h`run, h`faults, h`saves, h`marks
    ensures h.Valid() && h.state.lock != Some(me) && InTurn(old(h.run), k, h.run)
    ensures h.faults >= old(h.faults) && (r == Alive(true) ==> h.faults == old(h.faults))
    ensures h.faults == old(h.faults) ==> RecoveryReached(k, me) && (r == Alive(true) <==> RecoveryGoesThrough(k))
    ensures r == Alive(true) ==> GaveBack(k.locked.state.receipt, k.ended.state.receipt) && EndsIn(h.run, Unlock(me))
  {
    var clean, plan, receipt, opening := h.StartCommand(me);
    k := Looks(opening, opening, opening, opening);
    if clean != Alive(true) { return clean, k; }
    if HasActiveUpdate(receipt) || !PartialComposeFailure(receipt) { return Alive(false), k; }
    ghost var helper, locked, ended;
    r, helper := h.StartVerification(me, plan);
    k := Looks(opening, helper, helper, helper);
    if r != Alive(true) { return; }
    r, locked, ended := RecoverVerified(h, me, plan);
    k := k.(locked := locked, ended := ended);
  }

  /** The lock window of a recovery. */
  method RecoverVerified(h: Host, me: Pid, verified: Plan) returns (r: Reply, ghost locked: Run, ghost ended: Run)
    requires h.Valid() && h.state.lock != Some(me) && me in h.state.passed
    requires me in h.state.attested && h.state.attested[me] == verified
    modifies h`state, h`run, h`faults, h`saves, h`marks
    ensures h.Valid() && h.state.lock != Some(me)
    ensures Continues(old(h.run), locked) && Continues(locked, ended) && Continues(ended, h.run)
    ensures h.faults >= old(h.faults) && (r == Alive(true) ==> h.faults == old(h.faults))
    ensures h.faults == old(h.faults) ==>
              EndsIn(locked, Acquire(me)) && (r == Alive(true) <==> RecoveryAdmitted(locked.state, verified))
    ensures r == Alive(true) ==> GaveBack(locked.state.receipt, ended.state.receipt) && EndsIn(h.run, Unlock(me))
  {
    r, locked := h.StartWindow(me);
    ended := locked;
    if r != Alive(true) { return; }
    r := RecoverComposeLocked(h, me, verified);
    h.Mark();
    ended := h.run;
    if r.Alive? { h.CloseLock(me); }
  }

  /** `bootstrap-tenancy` under its lock. `check` only inspects, and reads without
      recovery; otherwise recovery comes first and repairs a pending commit. */
  method BootstrapLocked(h: Host, me: Pid, check: bool) returns (r: Reply)
    requires h.Valid() && h.state.lock == Some(me)
    modifies h`state, h`run, h`faults, h`saves, h`unread
    ensures Returned(h, me, r)
    ensures r.Alive? ==> h.state.receipt == old(h.state.receipt) && h.state.plan == old(h.state.plan)
    ensures h.faults >= old(h.faults) && h.saves <= old(h.saves) + (if check then 0 else 1)
    ensures h.faults == old(h.faults) ==>
              (r == Alive(true) <==> BootstrapReads(old(h.state.files), check) && TenancyAllowed(old(h.state.receipt)))
    ensures h.faults == old(h.faults) && !check && !old(h.state.files).Lost? ==> h.state.files.Tidy?
    ensures r == Alive(true) ==> h.faults == old(h.faults)
  {
    var readable, receipt :- ReadForBootstrap(h, me, check);
    if !readable || !TenancyAllowed(receipt) { return Alive(false); }
    var ok :- h.Do(me, Tenancy);
    if !ok || check { return Alive(ok); }
    r := h.SaveReceipt(me, receipt, RecordTenancy);
  }

  method ReadForBootstrap(h: Host, me: Pid, check: bool) returns (r: Reply, receipt: Receipt)
    requires h.Valid() && h.state.lock == Some(me)
    modifies h`state, h`run, h`faults, h`saves, h`unread
    ensures Returned(h, me, r) && (r.Alive? ==> Reread(old(h.state), h.state))
    ensures r == Alive(true) ==> h.state.files.Tidy? && receipt == h.state.receipt && h.faults == old(h.faults)
    ensures h.faults == old(h.faults) ==> r == Alive(BootstrapReads(old(h.state.files), check))
    ensures h.faults >= old(h.faults) && h.saves == old(h.saves)
  {
    if check {
      var ok, _, read := h.ReadReadOnly(me);
      return ok, read;
    }
    var ok, _, read := h.RecoverOperation(me, true);
    return ok, read;
  }

  predicate BootstrapReads(files: CommitFiles, check: bool) {
    if check then files.Tidy? else !files.Lost?
  }

  predicate TenancyAllowed(r: Receipt) {
    && |r.completed| > Rank(Readiness) && !HasActiveUpdate(r)
    && (r.status.Running? || r.status.Failed? || r.status.Succeeded?)
  }

  method BootstrapTenancy(h: Host, me: Pid, check: bool) returns (r: Reply, ghost locked: Run, ghost ended: Run)
    requires h.Valid() && h.state.lock != Some(me)
    modifies h
    ensures h.Valid() && h.state.lock != Some(me)
    ensures Continues(old(h.run), locked) && Continues(locked, ended) && Continues(ended, h.run)
    ensures h.faults >= old(h.faults) && (r == Alive(true) ==> h.faults == old(h.faults))
    ensures h.faults == old(h.faults) ==>
              && EndsIn(locked, Acquire(me))
              && (r == Alive(true) <==>
                  BootstrapReads(locked.state.files, check) && TenancyAllowed(locked.state.receipt))
    ensures h.faults == old(h.faults) && !check && !locked.state.files.Lost? ==> ended.state.files.Tidy?
    ensures r.Alive? ==> ended.state.plan == locked.state.plan && ended.state.receipt == locked.state.receipt
    ensures r == Alive(true) ==> EndsIn(h.run, Unlock(me))
  {
    r, locked := h.StartWindow(me);
    ended := locked;
    if r != Alive(true) { return; }
    r := BootstrapLocked(h, me, check);
    h.Mark();
    ended := h.run;
    if r.Alive? { h.CloseLock(me); }
  }
}
