/** `secondbox-deploy update` (cmd/secondbox-deploy/update_command.go). Each
    method follows one part of the Go code; its effects go through the Host, so
    issuing one out of turn fails the effect's guard. */
module UpdateCommand {
  import opened Outcome
  import opened InstallReceipt
  import opened Protocol
  import opened ProtocolSafety
  import opened ProtocolTheorems
  import opened Deployment

  /** The in-memory pair is durable, the update is unfinished after `progress`
      stages, and the plan is the one the privileged helper verified. */
  predicate At(s: State, me: Pid, plan: Plan, receipt: Receipt, progress: nat) {
    && s.lock == Some(me) && s.files.Tidy? && s.plan == plan && s.receipt == receipt
    && Updating(s, me, progress)
  }

  /** The same update, further along. */
  predicate Continued(r: Receipt, r': Receipt) {
    && HasActiveUpdate(r) && |r'.updates| == |r.updates|
    && LatestUpdate(r').id == LatestUpdate(r).id
    && LatestUpdate(r').source == LatestUpdate(r).source
    && LatestUpdate(r').target == LatestUpdate(r).target
  }

  /** A locked part of the command returned, or died and lost the lock. */
  ghost predicate Ended(h: Host, me: Pid, plan: Plan, r: Reply)
    reads h
  {
    && h.Valid() && (r.Died? ==> h.state.lock != Some(me))
    && (r.Alive? ==> h.state.lock == Some(me))
    && (r == Alive(true) ==> h.state.plan == plan)
  }

  /** The boundary of the latest update is durable, finished or not. */
  predicate BoundaryDurable(r: Receipt) {
    |r.updates| > 0 && |LatestUpdate(r).stages| > 3
  }

  ghost predicate KeepsFence(before: Run, after: Run, me: Pid) {
    FenceUp(after, me) <==> FenceUp(before, me)
  }

  /** The `complete` closure: append the next stage and persist. */
  method Complete(h: Host, me: Pid, plan: Plan, receipt: Receipt, stage: UpdateStage, subject: string)
    returns (r: Reply, next: Receipt)
    requires h.Valid() && At(h.state, me, plan, receipt, UpdateRank(stage))
    requires UpdateDeeds(stage) <= h.state.done && !stage.UpdateSmoke? && (stage.ActivationStarted? ==> subject != "")
    modifies h`state, h`run, h`faults, h`saves
    ensures Ended(h, me, plan, r)
    ensures Continued(receipt, next)
    ensures r == Alive(true) ==> At(h.state, me, plan, next, UpdateRank(stage) + 1)
    ensures r == Alive(true) && stage.ActivationStarted? ==> LatestUpdate(next).subject == subject
    ensures r == Alive(false) ==>
              At(h.state, me, plan, receipt, UpdateRank(stage)) || At(h.state, me, plan, next, UpdateRank(stage) + 1)
    ensures h.faults == old(h.faults) + (if r == Alive(true) then 0 else 1)
    ensures h.saves == old(h.saves) + (if r == Alive(true) then 1 else 0)
    ensures r.Alive? ==> KeepsFence(old(h.run), h.run, me)
  {
    var op := CompleteUpdate(stage, subject);
    next := CompleteUpdateStage(receipt, stage, subject).value;
    UpdateOpAdvances(plan, receipt, op);
    r := h.SaveReceipt(me, next, op);
  }

  /** The `fail` closure: journal the failed stage; the command still fails. */
  method Fail(h: Host, me: Pid, plan: Plan, receipt: Receipt, stage: UpdateStage) returns (r: Reply)
    requires h.Valid() && At(h.state, me, plan, receipt, UpdateProgress(receipt))
    modifies h`state, h`run, h`faults, h`saves
    ensures Ended(h, me, plan, r) && r != Alive(true) && h.faults >= old(h.faults) && h.saves >= old(h.saves)
    ensures r.Alive? ==> UpdateProgress(h.state.receipt) == UpdateProgress(receipt)
    ensures r.Alive? ==> KeepsFence(old(h.run), h.run, me)
  {
    var op := FailUpdateAt(stage);
    var failed := FailUpdate(receipt, stage).value;
    UpdateOpAdvances(plan, receipt, op);
    var _ :- h.SaveReceipt(me, failed, op);
    return Alive(false);
  }

  /** One effect of a stage; a failure is journaled. */
  method Try(h: Host, me: Pid, plan: Plan, receipt: Receipt, deed: Deed, stage: UpdateStage) returns (r: Reply)
    requires h.Valid() && At(h.state, me, plan, receipt, UpdateProgress(receipt)) && DeedAllowed(h.state, me, deed)
    modifies h`state, h`run, h`faults, h`saves
    ensures Ended(h, me, plan, r)
    ensures r == Alive(true) ==> At(h.state, me, plan, receipt, UpdateProgress(receipt)) && h.saves == old(h.saves)
    ensures r == Alive(true) ==> h.state.done == old(h.state.done) - Overturned(deed) + {deed}
    ensures r.Alive? ==> UpdateProgress(h.state.receipt) == UpdateProgress(receipt)
    ensures r.Alive? ==> (FenceUp(h.run, me) <==> FenceAfter(FenceUp(old(h.run), me), deed, r.ok))
    ensures h.faults >= old(h.faults) && (r == Alive(true) <==> h.faults == old(h.faults)) && h.saves >= old(h.saves)
  {
    r := h.Do(me, deed);
    if r == Alive(false) { r := Fail(h, me, plan, receipt, stage); }
  }

  method StageAssets(h: Host, me: Pid, plan: Plan, receipt: Receipt) returns (r: Reply, next: Receipt)
    requires h.Valid() && At(h.state, me, plan, receipt, 2)
    modifies h`state, h`run, h`faults, h`saves
    ensures Ended(h, me, plan, r)
    ensures r == Alive(true) ==>
              At(h.state, me, plan, next, 3) && Continued(receipt, next) && h.saves == old(h.saves) + 1
    ensures h.faults >= old(h.faults) && (r == Alive(true) <==> h.faults == old(h.faults))
    ensures r.Alive? ==> KeepsFence(old(h.run), h.run, me)
    ensures r.Alive? ==> 2 <= UpdateProgress(h.state.receipt) <= 3
  {
    next := receipt;
    r := Try(h, me, plan, receipt, StageRelease, AssetsStaged);
    if r != Alive(true) { return; }
    r := Try(h, me, plan, receipt, StageFiles, AssetsStaged);
    if r != Alive(true) { return; }
    r, next := Complete(h, me, plan, receipt, AssetsStaged, "");
  }

  /** Validates the source, takes its Compose identity and finds it quiescent. An
      identity that turns out empty is a fault noticed at the boundary. */
  method CheckSource(h: Host, me: Pid, plan: Plan, receipt: Receipt) returns (r: Reply, subject: string)
    requires h.Valid() && At(h.state, me, plan, receipt, 3)
    modifies h`state, h`run, h`faults, h`saves
    ensures Ended(h, me, plan, r) && h.faults >= old(h.faults) && h.saves >= old(h.saves)
    ensures r == Alive(true) ==> At(h.state, me, plan, receipt, 3) && {ValidateSource, Quiesce(false)} <= h.state.done
    ensures r == Alive(true) ==> h.saves == old(h.saves) && (subject != "" <==> h.faults == old(h.faults))
    ensures r.Alive? ==> UpdateProgress(h.state.receipt) == 3
    ensures h.faults == old(h.faults) ==> r == Alive(true)
    ensures r.Alive? ==> KeepsFence(old(h.run), h.run, me)
  {
    subject := "";
    r := Try(h, me, plan, receipt, ValidateSource, ActivationStarted);
    if r != Alive(true) { return; }
    var known, identity :- h.SourceSubject(me);
    if !known { r := Fail(h, me, plan, receipt, ActivationStarted); return; }
    subject := identity;
    r := Try(h, me, plan, receipt, Quiesce(false), ActivationStarted);
    if r != Alive(true) { return; }
    r := Alive(true);
  }

  /** Fences admission, re-checks quiescence and journals the forward-only
      boundary. Unless a durable read failed, a fence raised here stands at the
      end exactly when the boundary is durable. */
  method CrossBoundary(h: Host, me: Pid, plan: Plan, receipt: Receipt) returns (r: Reply, next: Receipt)
    requires h.Valid() && At(h.state, me, plan, receipt, 3)
    modifies h`state, h`run, h`faults, h`saves, h`unread
    ensures Ended(h, me, plan, r)
    ensures r == Alive(true) ==>
              At(h.state, me, plan, next, 4) && Continued(receipt, next) && h.saves == old(h.saves) + 1
    ensures r == Alive(true) ==> LatestUpdate(next).subject != ""
    ensures h.faults >= old(h.faults) && (r == Alive(true) <==> h.faults == old(h.faults))
    ensures r.Alive? && h.unread == old(h.unread) && FenceUp(h.run, me) ==>
              FenceUp(old(h.run), me) || BoundaryJournaled(h.state.receipt)
    ensures r.Alive? && BoundaryJournaled(h.state.receipt) ==> FenceUp(h.run, me)
    ensures r.Alive? ==> HasActiveUpdate(h.state.receipt)
  {
    next := receipt;
    var subject;
    r, subject := CheckSource(h, me, plan, receipt);
    if r != Alive(true) { return; }
    r := Try(h, me, plan, receipt, StopControlPlane, ActivationStarted);
    if r != Alive(true) { return; }
    var ok :- h.Do(me, Quiesce(true));
    if !ok {
      var _ :- h.Do(me, StartControlPlane);
      r := Fail(h, me, plan, receipt, ActivationStarted);
      return;
    }
    r, next := JournalBoundary(h, me, plan, receipt, subject);
  }

  /** A save that fails may still have crossed the boundary, so the durable
      receipt decides whether the source may be restarted. */
  method JournalBoundary(h: Host, me: Pid, plan: Plan, receipt: Receipt, subject: string)
    returns (r: Reply, next: Receipt)
    requires h.Valid() && At(h.state, me, plan, receipt, 3) && UpdateDeeds(ActivationStarted) <= h.state.done
    modifies h`state, h`run, h`faults, h`saves, h`unread
    ensures Ended(h, me, plan, r)
    ensures r == Alive(true) ==>
              At(h.state, me, plan, next, 4) && Continued(receipt, next) && h.saves == old(h.saves) + 1
    ensures r == Alive(true) ==> LatestUpdate(next).subject == subject && subject != ""
    ensures h.faults >= old(h.faults) && (r == Alive(true) ==> h.faults == old(h.faults))
    ensures subject != "" && h.faults == old(h.faults) ==> r == Alive(true)
    ensures r.Alive? && h.unread == old(h.unread) && FenceUp(h.run, me) ==> BoundaryJournaled(h.state.receipt)
    ensures r.Alive? && BoundaryJournaled(h.state.receipt) ==> KeepsFence(old(h.run), h.run, me)
    ensures r.Alive? ==> HasActiveUpdate(h.state.receipt)
  {
    next := receipt;
    if subject == "" {
      var _ :- h.Do(me, StartControlPlane);
      return Alive(false), next;
    }
    r, next := Complete(h, me, plan, receipt, ActivationStarted, subject);
    if r == Alive(false) {
      var readable, _, durable :- h.ReadReadOnly(me);
      if readable && !Committed(durable, LatestUpdate(receipt).id) {
        var _ :- h.Do(me, StartControlPlane);
      }
      r := Alive(false);
    }
  }

  predicate Committed(durable: Receipt, id: nat) {
    HasActiveUpdate(durable) && LatestUpdate(durable).id == id && |LatestUpdate(durable).stages| > 3
  }

  /** Behind the boundary: source down, then the target's files. */
  method PublishTarget(h: Host, me: Pid, plan: Plan, receipt: Receipt) returns (r: Reply, next: Receipt)
    requires h.Valid() && At(h.state, me, plan, receipt, 4)
    modifies h`state, h`run, h`faults, h`saves
    ensures Ended(h, me, plan, r)
    ensures r == Alive(true) ==>
              At(h.state, me, plan, next, 5) && Continued(receipt, next) && h.saves == old(h.saves) + 1
    ensures r.Alive? ==> UpdateProgress(h.state.receipt) >= 4
    ensures h.faults >= old(h.faults) && (r == Alive(true) ==> h.faults == old(h.faults))
    ensures LatestUpdate(receipt).subject != "" && h.faults == old(h.faults) ==> r == Alive(true)
    ensures r.Alive? ==> KeepsFence(old(h.run), h.run, me)
  {
    next := receipt;
    if LatestUpdate(receipt).subject == "" { r := Fail(h, me, plan, receipt, DeploymentPublished); return; }
    r := ReplaceFiles(h, me, plan, receipt);
    if r != Alive(true) { return; }
    r, next := Complete(h, me, plan, receipt, DeploymentPublished, "");
  }

  method ReplaceFiles(h: Host, me: Pid, plan: Plan, receipt: Receipt) returns (r: Reply)
    requires h.Valid() && At(h.state, me, plan, receipt, 4)
    modifies h`state, h`run, h`faults, h`saves
    ensures Ended(h, me, plan, r) && h.saves >= old(h.saves)
    ensures r == Alive(true) ==> At(h.state, me, plan, receipt, 4) && UpdateDeeds(DeploymentPublished) <= h.state.done
    ensures r == Alive(true) ==> h.saves == old(h.saves)
    ensures r.Alive? ==> KeepsFence(old(h.run), h.run, me) && UpdateProgress(h.state.receipt) == 4
    ensures h.faults >= old(h.faults) && (r == Alive(true) <==> h.faults == old(h.faults))
  {
    r := Try(h, me, plan, receipt, SourceDown, DeploymentPublished);
    if r != Alive(true) { return; }
    r := Try(h, me, plan, receipt, ActivateArtifacts, DeploymentPublished);
    if r != Alive(true) { return; }
    r := Try(h, me, plan, receipt, StageFiles, DeploymentPublished);
    if r != Alive(true) { return; }
    r := Try(h, me, plan, receipt, PublishManifest, DeploymentPublished);
  }

  method StartTarget(h: Host, me: Pid, plan: Plan, receipt: Receipt) returns (r: Reply, next: Receipt)
    requires h.Valid() && At(h.state, me, plan, receipt, 5)
    modifies h`state, h`run, h`faults, h`saves
    ensures Ended(h, me, plan, r)
    ensures r == Alive(true) ==>
              At(h.state, me, plan, next, 6) && Continued(receipt, next) && h.saves == old(h.saves) + 1
    ensures r.Alive? ==> UpdateProgress(h.state.receipt) >= 5
    ensures h.faults >= old(h.faults) && (r == Alive(true) <==> h.faults == old(h.faults))
    ensures r.Alive? ==> KeepsFence(old(h.run), h.run, me)
  {
    next := receipt;
    r := Try(h, me, plan, receipt, Prepare, UpdateComposeStarted);
    if r != Alive(true) { return; }
    r := Try(h, me, plan, receipt, Up, UpdateComposeStarted);
    if r != Alive(true) { return; }
    r, next := Complete(h, me, plan, receipt, UpdateComposeStarted, "");
  }

  method ProveTarget(h: Host, me: Pid, plan: Plan, receipt: Receipt) returns (r: Reply, next: Receipt)
    requires h.Valid() && At(h.state, me, plan, receipt, 7)
    modifies h`state, h`run, h`faults, h`saves
    ensures Ended(h, me, plan, r)
    ensures r == Alive(true) ==>
              At(h.state, me, plan, next, 8) && Continued(receipt, next) && h.saves == old(h.saves) + 1
    ensures r.Alive? ==> UpdateProgress(h.state.receipt) >= 7
    ensures h.faults >= old(h.faults) && (r == Alive(true) <==> h.faults == old(h.faults))
    ensures r.Alive? ==> KeepsFence(old(h.run), h.run, me)
  {
    next := receipt;
    FullyInstalled(h.run);
    r := Try(h, me, plan, receipt, ProveReady, UpdateReadiness);
    if r != Alive(true) { return; }
    r, next := Complete(h, me, plan, receipt, UpdateReadiness, "");
  }

  lemma FullyInstalled(r: Run)
    requires IsRun(r) && HasActiveUpdate(r.state.receipt)
    ensures |r.state.receipt.completed| == STAGE_COUNT
  {
    ActiveUpdateMeansSucceeded(r);
  }

  /** Smoke, validation of what was activated and clean-up of the staging area,
      then the pair becomes current unless the clock went backwards. */
  method ActivateTarget(h: Host, me: Pid, plan: Plan, receipt: Receipt, now: nat) returns (r: Reply)
    requires h.Valid() && At(h.state, me, plan, receipt, 8)
    modifies h`state, h`run, h`faults, h`saves
    ensures h.Valid() && (r.Died? ==> h.state.lock != Some(me)) && (r.Alive? ==> h.state.lock == Some(me))
    ensures r == Alive(true) ==> Finished(receipt, h.state) && h.saves == old(h.saves) + 1
    ensures r.Alive? && HasActiveUpdate(h.state.receipt) ==> UpdateProgress(h.state.receipt) >= 8
    ensures r == Alive(true) <==> h.faults == old(h.faults) && ClockAdvanced(plan, now)
    ensures h.faults >= old(h.faults)
    ensures r.Alive? ==> KeepsFence(old(h.run), h.run, me)
    ensures r.Alive? ==> BoundaryDurable(h.state.receipt)
  {
    r := Try(h, me, plan, receipt, Smoke, UpdateSmoke);
    if r != Alive(true) { return; }
    r := Try(h, me, plan, receipt, ValidateActivated, UpdateSmoke);
    if r != Alive(true) { return; }
    r := Try(h, me, plan, receipt, CleanUpStaging, UpdateSmoke);
    if r != Alive(true) { return; }
    r := CommitTarget(h, me, plan, receipt, now);
  }

  method CommitTarget(h: Host, me: Pid, plan: Plan, receipt: Receipt, now: nat) returns (r: Reply)
    requires h.Valid() && At(h.state, me, plan, receipt, 8)
    requires {Smoke, ValidateActivated, CleanUpStaging} <= h.state.done
    modifies h`state, h`run, h`faults, h`saves
    ensures h.Valid() && (r.Died? ==> h.state.lock != Some(me)) && (r.Alive? ==> h.state.lock == Some(me))
    ensures r == Alive(true) ==> Finished(receipt, h.state) && h.saves == old(h.saves) + 1
    ensures r.Alive? && HasActiveUpdate(h.state.receipt) ==> UpdateProgress(h.state.receipt) >= 8
    ensures r == Alive(true) <==> h.faults == old(h.faults) && ClockAdvanced(plan, now)
    ensures h.faults >= old(h.faults)
    ensures r.Alive? ==> KeepsFence(old(h.run), h.run, me) && BoundaryDurable(h.state.receipt)
  {
    if !ClockAdvanced(plan, now) { return Alive(false); }
    FinishIsPossible(plan, receipt, now);
    var (activePlan, activeReceipt) := FinishedUpdate(plan, receipt, now).value;
    r := h.SaveOperation(me, now, activePlan, activeReceipt);
  }

  /** The update is recorded complete and its target is the plan's release. */
  predicate Finished(r: Receipt, s: State)
    requires HasActiveUpdate(r)
  {
    && !HasActiveUpdate(s.receipt) && |s.receipt.updates| == |r.updates|
    && LatestUpdate(s.receipt).id == LatestUpdate(r).id && LatestUpdate(s.receipt).target == LatestUpdate(r).target
    && LatestUpdate(s.receipt).status.UpdateSucceeded?
    && |LatestUpdate(s.receipt).stages| == UPDATE_STAGE_COUNT
    && s.plan.release == LatestUpdate(r).target
  }

  lemma FinishIsPossible(p: Plan, r: Receipt, now: nat)
    requires UpdateProgress(r) == 8 && ClockAdvanced(p, now)
    ensures FinishedUpdate(p, r, now).Some?
    ensures var (plan, receipt) := FinishedUpdate(p, r, now).value;
            && plan.release == LatestUpdate(r).target && !HasActiveUpdate(receipt) && |receipt.updates| == |r.updates|
            && LatestUpdate(receipt).id == LatestUpdate(r).id && LatestUpdate(receipt).target == LatestUpdate(r).target
            && LatestUpdate(receipt).status.UpdateSucceeded?
            && |LatestUpdate(receipt).stages| == UPDATE_STAGE_COUNT
  {
  }

  /** The update ladder. Without a fault and with an advanced clock it finishes
      with one save for every stage still missing. Unless a durable read failed, a
      fence it raised stands at the end only with the boundary durable, and one
      that led to the boundary was never lowered. */
  method ContinueUpdate(h: Host, me: Pid, plan: Plan, receipt: Receipt, now: nat) returns (r: Reply)
    requires h.Valid() && At(h.state, me, plan, receipt, UpdateProgress(receipt))
    modifies h`state, h`run, h`faults, h`saves, h`unread
    ensures h.Valid() && (r.Died? ==> h.state.lock != Some(me)) && (r.Alive? ==> h.state.lock == Some(me))
    ensures r == Alive(true) ==> Finished(receipt, h.state)
    ensures r == Alive(true) <==> h.faults == old(h.faults) && ClockAdvanced(plan, now)
    ensures h.faults >= old(h.faults)
    ensures r == Alive(true) ==> h.saves == old(h.saves) + UPDATE_STAGE_COUNT - UpdateProgress(receipt)
    ensures r.Alive? && h.unread == old(h.unread) && FenceUp(h.run, me) ==>
              FenceUp(old(h.run), me) || BoundaryDurable(h.state.receipt)
    ensures r.Alive? && UpdateProgress(receipt) <= 3 && BoundaryDurable(h.state.receipt) ==> FenceUp(h.run, me)
  {
    UpdateInProgress(h.run);
    var verified :- h.Inspect(me);
    if !verified { return Alive(false); }
    var current := receipt;
    if UpdateProgress(current) < 3 {
      r, current := StageUpdate(h, me, plan, current);
      if r != Alive(true) { return; }
    }
    if UpdateProgress(current) == 3 {
      r, current := CrossBoundary(h, me, plan, current);
      if r != Alive(true) { return; }
    }
    r := FinishBehindBoundary(h, me, plan, current, now);
  }

  /** The stages before the source is touched. */
  method StageUpdate(h: Host, me: Pid, plan: Plan, receipt: Receipt) returns (r: Reply, next: Receipt)
    requires h.Valid() && At(h.state, me, plan, receipt, UpdateProgress(receipt)) && 1 <= UpdateProgress(receipt) <= 2
    modifies h`state, h`run, h`faults, h`saves
    ensures Ended(h, me, plan, r)
    ensures r == Alive(true) ==> At(h.state, me, plan, next, 3) && Continued(receipt, next)
    ensures r == Alive(true) ==> h.saves == old(h.saves) + 3 - UpdateProgress(receipt)
    ensures h.faults >= old(h.faults) && (r == Alive(true) <==> h.faults == old(h.faults))
    ensures r.Alive? ==> KeepsFence(old(h.run), h.run, me) && 1 <= UpdateProgress(h.state.receipt) <= 3
  {
    next := receipt;
    if UpdateProgress(next) == 1 {
      r, next := Complete(h, me, plan, next, UpdateReleaseVerified, "");
      if r != Alive(true) { return; }
    }
    r, next := StageAssets(h, me, plan, next);
  }

  method FinishBehindBoundary(h: Host, me: Pid, plan: Plan, receipt: Receipt, now: nat) returns (r: Reply)
    requires h.Valid() && At(h.state, me, plan, receipt, UpdateProgress(receipt)) && 4 <= UpdateProgress(receipt) <= 8
    requires LatestUpdate(receipt).subject != ""
    modifies h`state, h`run, h`faults, h`saves
    ensures h.Valid() && (r.Died? ==> h.state.lock != Some(me)) && (r.Alive? ==> h.state.lock == Some(me))
    ensures r == Alive(true) ==> Finished(receipt, h.state)
    ensures r == Alive(true) <==> h.faults == old(h.faults) && ClockAdvanced(plan, now)
    ensures h.faults >= old(h.faults)
    ensures r == Alive(true) ==> h.saves == old(h.saves) + UPDATE_STAGE_COUNT - UpdateProgress(receipt)
    ensures r.Alive? && HasActiveUpdate(h.state.receipt) ==> BoundaryJournaled(h.state.receipt)
    ensures r.Alive? ==> KeepsFence(old(h.run), h.run, me)
    ensures r.Alive? ==> BoundaryDurable(h.state.receipt)
  {
    var current := receipt;
    if UpdateProgress(current) == 4 {
      r, current := PublishTarget(h, me, plan, current);
      if r != Alive(true) { return; }
    }
    if UpdateProgress(current) == 5 {
      r, current := StartTarget(h, me, plan, current);
      if r != Alive(true) { return; }
    }
    r := FinishStarted(h, me, plan, current, now);
  }

  /** The stages of a target that was started. */
  method FinishStarted(h: Host, me: Pid, plan: Plan, receipt: Receipt, now: nat) returns (r: Reply)
    requires h.Valid() && At(h.state, me, plan, receipt, UpdateProgress(receipt)) && 6 <= UpdateProgress(receipt) <= 8
    modifies h`state, h`run, h`faults, h`saves
    ensures h.Valid() && (r.Died? ==> h.state.lock != Some(me)) && (r.Alive? ==> h.state.lock == Some(me))
    ensures r == Alive(true) ==> Finished(receipt, h.state)
    ensures r == Alive(true) <==> h.faults == old(h.faults) && ClockAdvanced(plan, now)
    ensures h.faults >= old(h.faults)
    ensures r == Alive(true) ==> h.saves == old(h.saves) + UPDATE_STAGE_COUNT - UpdateProgress(receipt)
    ensures r.Alive? ==> KeepsFence(old(h.run), h.run, me) && BoundaryDurable(h.state.receipt)
    ensures r.Alive? && HasActiveUpdate(h.state.receipt) ==> BoundaryJournaled(h.state.receipt)
  {
    var current := receipt;
    if UpdateProgress(current) == 6 {
      r, current := Complete(h, me, plan, current, ResourcesApplied, "");
      if r != Alive(true) { return; }
    }
    if UpdateProgress(current) == 7 {
      r, current := ProveTarget(h, me, plan, current);
      if r != Alive(true) { return; }
    }
    r := ActivateTarget(h, me, plan, current, now);
  }

  lemma UpdateInProgress(r: Run)
    requires IsRun(r) && HasActiveUpdate(r.state.receipt)
    ensures 1 <= UpdateProgress(r.state.receipt) <= 8
    ensures BoundaryJournaled(r.state.receipt) ==> LatestUpdate(r.state.receipt).subject != ""
  {
    RunInv(r);
    LatestIsValid(r.state.plan, r.state.receipt);
  }

  lemma LatestIsValid(p: Plan, r: Receipt)
    requires Coherent(p, r) && HasActiveUpdate(r)
    ensures UpdateProgress(r) <= 8 && (BoundaryJournaled(r) ==> LatestUpdate(r).subject != "")
  {
    assert ValidUpdate(LatestUpdate(r));
  }

  // ---- The whole command ----

  /** What `validateNewUpdate` and `BeginUpdate` demand of the durable pair. */
  predicate BeginAccepted(p: Plan, r: Receipt, id: nat, target: Release) {
    && r.status.Succeeded? && |r.completed| == STAGE_COUNT && !HasActiveUpdate(r)
    && target.version > p.release.version && target.manifest != p.release.manifest
    && (forall i :: 0 <= i < |r.updates| ==> r.updates[i].id != id)
  }

  /** And `ActivateUpdate`, in the end. */
  predicate NewUpdateAccepted(p: Plan, r: Receipt, id: nat, target: Release, now: nat) {
    BeginAccepted(p, r, id, target) && ClockAdvanced(p, now)
  }

  /** Resume finishes an unfinished update and confirms a completed one. */
  predicate ResumeAccepted(p: Plan, r: Receipt, now: nat) {
    |r.updates| > 0 && (HasActiveUpdate(r) ==> ClockAdvanced(p, now))
  }

  method BeginUpdateLocked(h: Host, me: Pid, plan: Plan, receipt: Receipt, id: nat, target: Release, now: nat)
    returns (r: Reply)
    requires h.Valid() && h.Synced(me, plan, receipt) && me in h.state.attested && h.state.attested[me] == plan
    requires !HasActiveUpdate(receipt)
    modifies h`state, h`run, h`faults, h`saves, h`unread
    ensures h.Valid() && (r.Died? ==> h.state.lock != Some(me)) && (r.Alive? ==> h.state.lock == Some(me))
    ensures r == Alive(true) ==> Updated(h.state, target)
    ensures r == Alive(true) ==> h.saves == old(h.saves) + UPDATE_STAGE_COUNT
    ensures h.faults >= old(h.faults)
    ensures h.faults == old(h.faults) ==> (r == Alive(true) <==> NewUpdateAccepted(plan, receipt, id, target, now))
    ensures !BeginAccepted(plan, receipt, id, target) && r.Alive? ==> h.Synced(me, plan, receipt)
    ensures r.Alive? && h.unread == old(h.unread) && FenceUp(h.run, me) ==>
              FenceUp(old(h.run), me) || BoundaryDurable(h.state.receipt)
    ensures r == Alive(true) ==> h.faults == old(h.faults)
  {
    if !receipt.status.Succeeded? || |receipt.completed| != STAGE_COUNT || target.version <= plan.release.version {
      return Alive(false);
    }
    var ok :- ReadyToBegin(h, me);
    if !ok { return Alive(false); }
    if BeginUpdate(receipt, id, plan.release, target).None? { return Alive(false); }
    var begun;
    r, begun := JournalBegin(h, me, plan, receipt, id, target);
    if r != Alive(true) { return; }
    r := ContinueUpdate(h, me, plan, begun, now);
  }

  /** The new update becomes durable together with its first stage. */
  method JournalBegin(h: Host, me: Pid, plan: Plan, receipt: Receipt, id: nat, target: Release)
    returns (r: Reply, begun: Receipt)
    requires h.Valid() && h.Synced(me, plan, receipt) && me in h.state.attested && h.state.attested[me] == plan
    requires BeginUpdate(receipt, id, plan.release, target).Some? && target.version > plan.release.version
    requires {Quiesce(false), Confirm} <= h.state.done && |receipt.completed| == STAGE_COUNT
    modifies h`state, h`run, h`faults, h`saves
    ensures h.Valid() && (r.Died? ==> h.state.lock != Some(me)) && (r.Alive? ==> h.state.lock == Some(me))
    ensures r == Alive(true) ==> At(h.state, me, plan, begun, 1) && LatestUpdate(begun).target == target
    ensures r.Alive? ==> KeepsFence(old(h.run), h.run, me)
    ensures h.faults == old(h.faults) + (if r == Alive(true) then 0 else 1)
    ensures r == Alive(true) ==> h.saves == old(h.saves) + 1
  {
    BegunReceipt(plan, receipt, id, target);
    begun := ApplyOp(plan, receipt, Begin(id, target)).value;
    r := h.SaveReceipt(me, begun, Begin(id, target));
  }

  /** Source checks, capacity and quiescence, then the operator's confirmation. */
  method ReadyToBegin(h: Host, me: Pid) returns (r: Reply)
    requires h.Valid() && h.state.lock == Some(me)
    modifies h`state, h`run, h`faults, h`saves
    ensures h.Valid() && (r.Died? ==> h.state.lock != Some(me)) && Stable(old(h.state), h.state, me)
    ensures r.Alive? ==> h.state.lock == Some(me) && h.state.files == old(h.state.files)
    ensures r.Alive? ==> h.state.plan == old(h.state.plan) && h.state.receipt == old(h.state.receipt)
    ensures r == Alive(true) ==> {Quiesce(false), Confirm} <= h.state.done
    ensures (r == Alive(true) <==> h.faults == old(h.faults)) && h.saves == old(h.saves) && h.faults >= old(h.faults)
    ensures r.Alive? ==> KeepsFence(old(h.run), h.run, me)
  {
    var ok :- h.Inspect(me);
    if !ok { return Alive(false); }
    ok :- h.Do(me, Quiesce(false));
    if !ok { return Alive(false); }
    r := h.Do(me, Confirm);
  }

  predicate Updated(s: State, target: Release) {
    && |s.receipt.updates| > 0 && !HasActiveUpdate(s.receipt)
    && LatestUpdate(s.receipt).target == target && s.plan.release == target
  }

  lemma BegunReceipt(p: Plan, r: Receipt, id: nat, target: Release)
    requires BeginUpdate(r, id, p.release, target).Some?
    ensures ApplyOp(p, r, Begin(id, target)).Some?
    ensures var next := ApplyOp(p, r, Begin(id, target)).value;
            UpdateProgress(next) == 1 && HasActiveUpdate(next) && LatestUpdate(next).target == target
  {
  }

  /** Saves a resume without a fault makes. */
  function ResumeSaves(r: Receipt): int {
    if HasActiveUpdate(r) then UPDATE_STAGE_COUNT - UpdateProgress(r) else 0
  }

  /** Finishes the recorded update, or reports an already completed one. */
  method ResumeLocked(h: Host, me: Pid, plan: Plan, receipt: Receipt, now: nat) returns (r: Reply)
    requires h.Valid() && h.Synced(me, plan, receipt) && me in h.state.attested && h.state.attested[me] == plan
    modifies h`state, h`run, h`faults, h`saves, h`unread
    ensures h.Valid() && (r.Died? ==> h.state.lock != Some(me)) && (r.Alive? ==> h.state.lock == Some(me))
    ensures r == Alive(true) ==> |receipt.updates| > 0 && Updated(h.state, LatestUpdate(receipt).target)
    ensures r == Alive(true) ==> h.saves == old(h.saves) + ResumeSaves(receipt)
    ensures !HasActiveUpdate(receipt) && r.Alive? ==> Held(old(h.state), h.state)
    ensures h.faults >= old(h.faults)
    ensures h.faults == old(h.faults) ==> (r == Alive(true) <==> ResumeAccepted(plan, receipt, now))
    ensures r.Alive? && h.unread == old(h.unread) && FenceUp(h.run, me) ==>
              FenceUp(old(h.run), me) || BoundaryDurable(h.state.receipt)
    ensures r == Alive(true) ==> h.faults == old(h.faults)
  {
    if receipt.updates == [] { return Alive(false); }
    ReleaseIdentity(h.run);
    var ok :- h.Inspect(me);
    if !ok { return Alive(false); }
    if !HasActiveUpdate(receipt) { return Alive(plan.release == LatestUpdate(receipt).target); }
    ActiveUpdateMeansSucceeded(h.run);
    if !receipt.status.Succeeded? { return Alive(false); }
    r := ContinueUpdate(h, me, plan, receipt, now);
  }

  predicate Acceptable(p: Plan, r: Receipt, resume: bool, id: nat, target: Release, now: nat) {
    if resume then ResumeAccepted(p, r, now) else NewUpdateAccepted(p, r, id, target, now)
  }

  /** The recorded or the requested target is active. */
  predicate Succeeded(r: Receipt, resume: bool, target: Release, s: State) {
    if resume then |r.updates| > 0 && Updated(s, LatestUpdate(r).target) else !HasActiveUpdate(r) && Updated(s, target)
  }

  function CommandSaves(r: Receipt, resume: bool): int {
    if resume then ResumeSaves(r) else UPDATE_STAGE_COUNT
  }

  /** The second window goes through exactly from these states. */
  predicate Admitted(s: State, verified: Plan, resume: bool, id: nat, target: Release, now: nat) {
    !s.files.Lost? && s.plan == verified && Acceptable(s.plan, s.receipt, resume, id, target, now)
  }

  /** Everything after the second lock: the plan must still be the verified one. */
  method UpdateLocked(h: Host, me: Pid, resume: bool, id: nat, target: Release, now: nat, verified: Plan)
    returns (r: Reply)
    requires h.Valid() && h.state.lock == Some(me) && me in h.state.passed
    requires me in h.state.attested && h.state.attested[me] == verified
    modifies h`state, h`run, h`faults, h`saves, h`unread
    ensures h.Valid() && (r.Died? ==> h.state.lock != Some(me)) && (r.Alive? ==> h.state.lock == Some(me))
    ensures old(h.state.plan) != verified ==> r != Alive(true) && (r.Alive? ==> Reread(old(h.state), h.state))
    ensures r == Alive(true) ==> Succeeded(old(h.state.receipt), resume, target, h.state)
    ensures r == Alive(true) ==>
              h.faults == old(h.faults) && h.saves == old(h.saves) + CommandSaves(old(h.state.receipt), resume)
    ensures resume && !HasActiveUpdate(old(h.state.receipt)) && r.Alive? ==> Reread(old(h.state), h.state)
    ensures h.faults >= old(h.faults)
    ensures h.faults == old(h.faults) ==>
              (r == Alive(true) <==> Admitted(old(h.state), verified, resume, id, target, now))
    ensures r.Alive? && h.unread == old(h.unread) && FenceUp(h.run, me) ==>
              FenceUp(old(h.run), me) || BoundaryDurable(h.state.receipt)
  {
    var same, receipt :- ReadVerified(h, me, verified);
    if !same { return Alive(false); }
    ghost var read := h.state;
    r := ResumeOrBegin(h, me, resume, id, target, now, verified, receipt);
    if resume && !HasActiveUpdate(receipt) && r.Alive? { StillReread(old(h.state), read, h.state); }
  }

  lemma StillReread(s: State, s': State, s'': State)
    requires Reread(s, s') && Held(s', s'')
    ensures Reread(s, s'')
  {
  }

  /** Recovers the operation and compares its plan with the verified one. */
  method ReadVerified(h: Host, me: Pid, verified: Plan) returns (r: Reply, receipt: Receipt)
    requires h.Valid() && h.state.lock == Some(me) && me in h.state.passed
    requires me in h.state.attested && h.state.attested[me] == verified
    modifies h`state, h`run, h`faults, h`saves
    ensures h.Valid() && (r.Died? ==> h.state.lock != Some(me))
    ensures r.Alive? ==> Reread(old(h.state), h.state) && KeepsFence(old(h.run), h.run, me)
    ensures r == Alive(true) ==> old(h.state.plan) == verified && receipt == old(h.state.receipt)
    ensures r == Alive(true) ==> h.Synced(me, verified, receipt) && h.faults == old(h.faults)
    ensures r == Alive(true) ==> me in h.state.attested && h.state.attested[me] == verified
    ensures h.faults == old(h.faults) ==> r == Alive(!old(h.state.files).Lost? && old(h.state.plan) == verified)
    ensures h.faults >= old(h.faults) && h.saves == old(h.saves)
  {
    var plan;
    r, plan, receipt := h.RecoverOperation(me, false);
    if r == Alive(true) && plan != verified { r := Alive(false); }
  }

  method ResumeOrBegin(
    h: Host, me: Pid, resume: bool, id: nat, target: Release, now: nat, plan: Plan, receipt: Receipt)
    returns (r: Reply)
    requires h.Valid() && h.Synced(me, plan, receipt) && me in h.state.attested && h.state.attested[me] == plan
    modifies h`state, h`run, h`faults, h`saves, h`unread
    ensures h.Valid() && (r.Died? ==> h.state.lock != Some(me)) && (r.Alive? ==> h.state.lock == Some(me))
    ensures r == Alive(true) ==> Succeeded(receipt, resume, target, h.state)
    ensures r == Alive(true) ==> h.faults == old(h.faults) && h.saves == old(h.saves) + CommandSaves(receipt, resume)
    ensures resume && !HasActiveUpdate(receipt) && r.Alive? ==> Held(old(h.state), h.state)
    ensures h.faults >= old(h.faults)
    ensures h.faults == old(h.faults) ==> (r == Alive(true) <==> Acceptable(plan, receipt, resume, id, target, now))
    ensures r.Alive? && h.unread == old(h.unread) && FenceUp(h.run, me) ==>
              FenceUp(old(h.run), me) || BoundaryDurable(h.state.receipt)
  {
    if resume { r := ResumeLocked(h, me, plan, receipt, now); return; }
    if HasActiveUpdate(receipt) { return Alive(false); }
    r := BeginUpdateLocked(h, me, plan, receipt, id, target, now);
  }

  // ---- The whole command ----

  /** The moments at which the command looked: at its opening, when it took the
      lock first, when the helper verified, when it took the lock again, and when
      its locked part ended. One that was not reached is the last one that was. */
  datatype Windows = Windows(opening: Run, first: Run, helper: Run, locked: Run, ended: Run)

  /** They are moments of one run, in this order. */
  ghost predicate Chained(start: Run, w: Windows, end: Run) {
    && Continues(start, w.opening) && Continues(w.opening, w.first) && Continues(w.first, w.helper)
    && Continues(w.helper, w.locked) && Continues(w.locked, w.ended) && Continues(w.ended, end)
  }

  predicate VerifiedFirst(first: Run, helper: Run) {
    !first.state.files.Lost? && Verifies(helper.state, first.state.plan)
  }

  /** Without a fault each moment was reached, by its own event, as far as the ones
      before it allow. */
  predicate Reached(w: Windows, me: Pid) {
    w.opening.state.files.Tidy? ==>
      && EndsIn(w.opening, Open(me)) && EndsIn(w.first, Acquire(me))
      && (VerifiedFirst(w.first, w.helper) ==>
            EndsIn(w.helper, Attest(me, w.first.state.plan)) && EndsIn(w.locked, Acquire(me)))
  }

  /** What those states must say for the update to go through. */
  predicate GoesThrough(w: Windows, resume: bool, id: nat, target: Release, now: nat) {
    && w.opening.state.files.Tidy? && VerifiedFirst(w.first, w.helper)
    && Admitted(w.locked.state, w.first.state.plan, resume, id, target, now)
  }

  /** `runUpdateWith`: a read-only opening that refuses a pending commit, then the
      plan is verified with privilege between two lock windows. */
  method RunUpdate(h: Host, me: Pid, resume: bool, id: nat, target: Release, now: nat)
    returns (r: Reply, ghost w: Windows)
    requires h.Valid() && h.state.lock != Some(me)
    modifies h
    ensures h.Valid() && h.state.lock != Some(me) && Chained(old(h.run), w, h.run)
    ensures h.faults >= old(h.faults) && (r == Alive(true) ==> h.faults == old(h.faults))
    ensures h.faults == old(h.faults) ==>
              Reached(w, me) && (r == Alive(true) <==> GoesThrough(w, resume, id, target, now))
    ensures r == Alive(true) ==> Succeeded(w.locked.state.receipt, resume, target, w.ended.state)
    ensures r == Alive(true) ==> h.saves == old(h.saves) + CommandSaves(w.locked.state.receipt, resume)
    ensures r == Alive(true) && resume && !HasActiveUpdate(w.locked.state.receipt) ==>
              Reread(w.locked.state, w.ended.state)
    ensures r == Alive(true) ==> EndsIn(h.run, Unlock(me))
    ensures r.Alive? && h.unread == old(h.unread) && EndsIn(w.locked, Acquire(me)) && FenceUp(w.ended, me) ==>
              BoundaryDurable(w.ended.state.receipt)
  {
    var clean, _, _, opening := h.StartCommand(me);
    w := Windows(opening, opening, opening, opening, opening);
    if clean != Alive(true) { return clean, w; }
    var verified;
    ghost var first, helper, locked, ended;
    r, verified, first, helper := VerifyFirst(h, me);
    w := Windows(opening, first, helper, helper, helper);
    if r != Alive(true) { return; }
    r, locked, ended := UpdateVerified(h, me, resume, id, target, now, verified);
    w := w.(locked := locked, ended := ended);
  }

  /** The second lock window. */
  method UpdateVerified(h: Host, me: Pid, resume: bool, id: nat, target: Release, now: nat, verified: Plan)
    returns (r: Reply, ghost locked: Run, ghost ended: Run)
    requires h.Valid() && h.state.lock != Some(me) && me in h.state.passed
    requires me in h.state.attested && h.state.attested[me] == verified
    modifies h
    ensures h.Valid() && h.state.lock != Some(me)
    ensures Continues(old(h.run), locked) && Continues(locked, ended) && Continues(ended, h.run)
    ensures h.faults >= old(h.faults) && (r == Alive(true) ==> h.faults == old(h.faults))
    ensures h.faults == old(h.faults) ==>
              && EndsIn(locked, Acquire(me))
              && (r == Alive(true) <==> Admitted(locked.state, verified, resume, id, target, now))
    ensures r == Alive(true) ==> Succeeded(locked.state.receipt, resume, target, ended.state)
    ensures r == Alive(true) ==> h.saves == old(h.saves) + CommandSaves(locked.state.receipt, resume)
    ensures r == Alive(true) && resume && !HasActiveUpdate(locked.state.receipt) ==> Reread(locked.state, ended.state)
    ensures r == Alive(true) ==> EndsIn(h.run, Unlock(me))
    ensures r.Alive? && h.unread == old(h.unread) && EndsIn(locked, Acquire(me)) && FenceUp(ended, me) ==>
              BoundaryDurable(ended.state.receipt)
  {
    r, locked := h.StartWindow(me);
    ended := locked;
    if r != Alive(true) { return; }
    r := UpdateLocked(h, me, resume, id, target, now, verified);
    h.Mark();
    ended := h.run;
    if r.Alive? { h.CloseLock(me); }
  }

  /** The first lock window and the privileged verification of what it read. */
  method VerifyFirst(h: Host, me: Pid) returns (r: Reply, verified: Plan, ghost first: Run, ghost helper: Run)
    requires h.Valid() && h.state.lock != Some(me) && me in h.state.passed
    modifies h
    ensures h.Valid() && h.state.lock != Some(me) && h.saves == old(h.saves) && h.unread == old(h.unread)
    ensures Continues(old(h.run), first) && Continues(first, helper) && Continues(helper, h.run)
    ensures old(h.marks) + {first, helper} <= h.marks
    ensures r == Alive(true) ==> me in h.state.passed && me in h.state.attested && h.state.attested[me] == verified
    ensures r == Alive(true) ==> verified == first.state.plan && h.faults == old(h.faults)
    ensures h.faults >= old(h.faults)
    ensures h.faults == old(h.faults) ==>
              EndsIn(first, Acquire(me)) && (r == Alive(true) <==> VerifiedFirst(first, helper))
    ensures r == Alive(true) ==> EndsIn(helper, Attest(me, verified)) && helper == h.run
  {
    r, verified, first := ReadFirst(h, me);
    helper := first;
    if r != Alive(true) { return; }
    r, helper := h.StartVerification(me, verified);
  }

  /** The first lock window only recovers and reads. */
  method ReadFirst(h: Host, me: Pid) returns (r: Reply, plan: Plan, ghost first: Run)
    requires h.Valid() && h.state.lock != Some(me) && me in h.state.passed
    modifies h
    ensures h.Valid() && h.state.lock != Some(me) && h.saves == old(h.saves) && h.unread == old(h.unread)
    ensures Continues(old(h.run), first) && Continues(first, h.run) && h.marks == old(h.marks) + {first}
    ensures r == Alive(true) ==> me in h.state.passed && plan == first.state.plan && h.faults == old(h.faults)
    ensures h.faults >= old(h.faults)
    ensures h.faults == old(h.faults) ==> EndsIn(first, Acquire(me)) && r == Alive(!first.state.files.Lost?)
  {
    r, first := h.StartWindow(me);
    plan := h.state.plan;
    if r != Alive(true) { return; }
    var receipt;
    r, plan, receipt := h.RecoverOperation(me, false);
    if r.Alive? { h.CloseLock(me); }
  }
}
