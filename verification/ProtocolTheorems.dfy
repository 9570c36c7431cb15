/** Safety of whole runs: any number of processes, any interleaving, crashes
    between any two effects, and saves that fail without saying what they left. */
module ProtocolTheorems {
  import opened Outcome
  import opened InstallReceipt
  import opened Protocol
  import opened ProtocolSafety

  lemma {:induction false} RunInv(r: Run)
    requires IsRun(r)
    ensures Inv(r.state)
  {
    match r
    case Start(_) =>
    case Then(p, e, s) =>
      RunInv(p);
      StepKeepsInv(p.state, e, s);
  }

  // ---- The activation boundary ----

  /** Some process issued Compose up since the current boundary became durable. */
  ghost predicate UpSinceBoundary(r: Run) {
    && r.Then? && BoundaryJournaled(r.run.state.receipt)
    && ((r.event.Act? && r.event.deed.Up?) || UpSinceBoundary(r.run))
  }

  lemma UpIssuedStep(s: State, e: Event, s': State)
    requires Inv(s) && Step(s, e, s') && BoundaryJournaled(s'.receipt)
    ensures s'.upIssued <==> BoundaryJournaled(s.receipt) && (s.upIssued || (e.Act? && e.deed.Up?))
  {
    if e.Save? && ChangesUpdates(e.op) { UpdateOpAdvances(s.plan, s.receipt, e.op); }
    if e.Save? && !ChangesUpdates(e.op) { InstallOpCoherent(s, e.pid, e.op); }
    if e.Commit? { FinishedCoherent(s, e.now); }
  }

  lemma {:induction false} UpIssuedMeans(r: Run)
    requires IsRun(r) && BoundaryJournaled(r.state.receipt)
    ensures r.state.upIssued <==> UpSinceBoundary(r)
  {
    match r
    case Start(_) =>
    case Then(p, e, s) =>
      RunInv(p);
      UpIssuedStep(p.state, e, s);
      if BoundaryJournaled(p.state.receipt) { UpIssuedMeans(p); }
  }

  /** Once the boundary is durable, no control plane runs and no Sandbox is
      active until some process issues the target's Compose up; afterwards only
      the target's control plane can be running. */
  lemma ActivationFence(r: Run)
    requires IsRun(r) && BoundaryJournaled(r.state.receipt)
    ensures !UpSinceBoundary(r) ==> r.state.control.Stopped? && !r.state.active
    ensures r.state.control.Serving? ==> r.state.control.release == LatestUpdate(r.state.receipt).target
  {
    RunInv(r);
    UpIssuedMeans(r);
  }

  predicate RequiresBoundary(deed: Deed) {
    deed.SourceDown? || deed.ActivateArtifacts? || deed.PublishManifest?
  }

  /** The source goes down, and target files are activated and published, only
      behind a durable boundary; its control plane restarts only before one. */
  lemma ForwardOnly(r: Run, e: Event, s: State)
    requires IsRun(Then(r, e, s)) && e.Act?
    ensures RequiresBoundary(e.deed) ==> BoundaryJournaled(r.state.receipt)
    ensures e.deed.StartControlPlane? ==> HasActiveUpdate(r.state.receipt) && !BoundaryJournaled(r.state.receipt)
  {
  }

  // ---- The update journal ----

  /** Same update, same releases, and a journal that only grew. */
  predicate Grew(u: UpdateRecord, v: UpdateRecord) {
    u.id == v.id && u.source == v.source && u.target == v.target && u.stages <= v.stages
  }

  ghost predicate JournalGrew(r: Receipt, r': Receipt) {
    && |r.updates| <= |r'.updates|
    && forall i :: 0 <= i < |r.updates| ==> Grew(r.updates[i], r'.updates[i])
  }

  lemma OpJournal(p: Plan, r: Receipt, op: ReceiptOp)
    requires ApplyOp(p, r, op).Some?
    ensures JournalGrew(r, ApplyOp(p, r, op).value)
  {
    match op
    case CompleteUpdate(_, _) =>
    case FailUpdateAt(_) =>
    case Begin(_, _) =>
    case _ => assert ApplyOp(p, r, op).value.updates == r.updates;
  }

  lemma FinishJournal(p: Plan, r: Receipt, now: nat)
    requires FinishedUpdate(p, r, now).Some?
    ensures JournalGrew(r, FinishedUpdate(p, r, now).value.1)
  {
  }

  lemma JournalStep(s: State, e: Event, s': State)
    requires Step(s, e, s')
    ensures JournalGrew(s.receipt, s'.receipt)
  {
    match e
    case Save(_, op, _, _) => OpJournal(s.plan, s.receipt, op);
    case Commit(_, now, _, _) => FinishJournal(s.plan, s.receipt, now);
    case _ => assert s'.receipt == s.receipt;
  }

  /** Over any run the update journal only grows: no record disappears, changes
      its releases, or loses a stage. */
  lemma {:induction false} JournalGrows(earlier: Run, later: Run)
    requires IsRun(later) && Continues(earlier, later)
    ensures JournalGrew(earlier.state.receipt, later.state.receipt)
  {
    if earlier != later {
      JournalGrows(earlier, later.run);
      JournalStep(later.run.state, later.event, later.state);
      var a, b, c := earlier.state.receipt, later.run.state.receipt, later.state.receipt;
      forall i | 0 <= i < |a.updates| ensures Grew(a.updates[i], c.updates[i]) {
        assert Grew(a.updates[i], b.updates[i]) && Grew(b.updates[i], c.updates[i]);
      }
    }
  }

  /** After an update's boundary was ever durable its source control plane is
      never restarted: a later restart belongs to another update. */
  lemma SourceNeverRestarted(earlier: Run, later: Run, e: Event, s: State)
    requires IsRun(Then(later, e, s)) && Continues(earlier, later)
    requires BoundaryJournaled(earlier.state.receipt)
    requires e.Act? && e.deed.StartControlPlane?
    ensures LatestUpdate(later.state.receipt).id != LatestUpdate(earlier.state.receipt).id
  {
    JournalGrows(earlier, later);
    RunInv(later);
    ForwardOnly(later, e, s);
    BoundaryOutlived(earlier.state.receipt, later.state.receipt);
  }

  lemma BoundaryOutlived(r: Receipt, r': Receipt)
    requires JournalGrew(r, r') && ValidUpdates(r'.updates)
    requires BoundaryJournaled(r) && HasActiveUpdate(r') && !BoundaryJournaled(r')
    ensures LatestUpdate(r').id != LatestUpdate(r).id
  {
    var n := |r.updates| - 1;
    assert Grew(r.updates[n], r'.updates[n]);
  }

  /** The durable plan names the source release exactly while the update is
      unfinished, and its target exactly once it is recorded complete. */
  lemma ReleaseIdentity(r: Run)
    requires IsRun(r) && |r.state.receipt.updates| > 0
    ensures var u := LatestUpdate(r.state.receipt);
            && (HasActiveUpdate(r.state.receipt) <==> r.state.plan.release == u.source)
            && (!HasActiveUpdate(r.state.receipt) <==> r.state.plan.release == u.target)
            && (HasActiveUpdate(r.state.receipt) <==> |u.stages| < UPDATE_STAGE_COUNT)
  {
    RunInv(r);
    var u := LatestUpdate(r.state.receipt);
    assert ValidUpdate(u);
    assert u.source.manifest != u.target.manifest;
  }

  // ---- Updates and teardown exclude each other ----

  /** No command checks all of this; together they keep it. Purge in particular
      never looks for an active update. */
  lemma ActiveUpdateMeansSucceeded(r: Run)
    requires IsRun(r) && HasActiveUpdate(r.state.receipt)
    ensures r.state.receipt.status.Succeeded? && |r.state.receipt.completed| == STAGE_COUNT
  {
    RunInv(r);
  }

  predicate Destroys(e: Event) {
    e.RemoveVolumes?
    || (e.Save? && (e.op.BeginPurge? || e.op.VolumesPurged? || e.op.RemoveResources? || e.op.FinishPurge?))
  }

  lemma NoPurgeDuringUpdate(r: Run, e: Event, s: State)
    requires IsRun(Then(r, e, s)) && Destroys(e)
    ensures !HasActiveUpdate(r.state.receipt)
  {
    RunInv(r);
  }

  /** No save a command proposes is refused by the receipt's own validation. */
  lemma SavesAreValid(r: Run, e: Event, s: State)
    requires IsRun(Then(r, e, s)) && e.Save?
    ensures Validate(ApplyOp(r.state.plan, r.state.receipt, e.op).value)
  {
    RunInv(r);
    if ChangesUpdates(e.op) { UpdateOpCoherent(r.state, e.pid, e.op); }
    else { InstallOpCoherent(r.state, e.pid, e.op); }
    CoherentIsValid(r.state.plan, ApplyOp(r.state.plan, r.state.receipt, e.op).value);
  }

  /** Nor is an activated pair, by that validation or by the history check. */
  lemma CommitsAreValid(r: Run, e: Event, s: State)
    requires IsRun(Then(r, e, s)) && e.Commit?
    ensures var (plan, receipt) := FinishedUpdate(r.state.plan, r.state.receipt, e.now).value;
            Validate(receipt) && HistoryCoherent(plan, receipt)
  {
    RunInv(r);
    FinishedCoherent(r.state, e.now);
    var (plan, receipt) := FinishedUpdate(r.state.plan, r.state.receipt, e.now).value;
    CoherentIsValid(plan, receipt);
  }

  lemma CoherentIsValid(p: Plan, r: Receipt)
    requires Coherent(p, r)
    ensures Validate(r)
  {
  }

  // ---- Purge ----

  /** Once purging, the receipt only gains removals until it is Purged for good. */
  predicate PurgeAdvanced(r: Receipt, r': Receipt) {
    && PurgeStarted(r') && r'.created == r.created && r.removed <= r'.removed
    && (r.volumesPurged ==> r'.volumesPurged) && (r.status.Purged? ==> r' == r)
  }

  lemma PurgeOp(s: State, pid: Pid, op: ReceiptOp)
    requires PurgeStarted(s.receipt) && !HasActiveUpdate(s.receipt) && OpAllowed(s, pid, op)
    requires ApplyOp(s.plan, s.receipt, op).Some?
    ensures PurgeAdvanced(s.receipt, ApplyOp(s.plan, s.receipt, op).value)
  {
  }

  lemma PurgeAct(s: State, e: Event, s': State)
    requires PurgeStarted(s.receipt) && !HasActiveUpdate(s.receipt) && e.Act? && ActStep(s, e, s')
    ensures !e.deed.Prepare? && !e.deed.Up? && s'.receipt == s.receipt && s'.plan == s.plan
    ensures (!s.volumes ==> !s'.volumes) && (Gone(s) ==> Gone(s'))
  {
    DeedKeeps(s, e.deed, e.key, s'.(upIssued := s.upIssued, done := s.done));
  }

  lemma PurgeStep(s: State, e: Event, s': State)
    requires PurgeStarted(s.receipt) && !HasActiveUpdate(s.receipt) && Step(s, e, s')
    ensures PurgeAdvanced(s.receipt, s'.receipt) && s'.plan == s.plan
    ensures (!s.volumes ==> !s'.volumes) && (Gone(s) ==> Gone(s'))
    ensures !(e.Act? && (e.deed.Prepare? || e.deed.Up?))
  {
    match e
    case Act(_, _, _, _) => PurgeAct(s, e, s');
    case Save(_, op, _, _) => PurgeOp(s, e.pid, op);
    case RemoveVolumes(_, _) => assert s'.receipt == s.receipt;
    case _ => assert s'.receipt == s.receipt && s'.volumes == s.volumes && s'.control == s.control;
  }

  /** Purging is final: once durable it stays Purging or Purged, no process
      issues Compose prepare or up, and removed volumes never come back. */
  lemma {:induction false} PurgeIsFinal(earlier: Run, later: Run)
    requires IsRun(later) && Continues(earlier, later) && PurgeStarted(earlier.state.receipt)
    ensures PurgeAdvanced(earlier.state.receipt, later.state.receipt)
            && (!earlier.state.volumes ==> !later.state.volumes)
    ensures forall e, s :: IsRun(Then(later, e, s)) ==> !(e.Act? && (e.deed.Prepare? || e.deed.Up?))
  {
    RunInv(later);
    if earlier != later {
      PurgeIsFinal(earlier, later.run);
      RunInv(later.run);
      PurgeStep(later.run.state, later.event, later.state);
    }
    forall e, s | IsRun(Then(later, e, s)) ensures !(e.Act? && (e.deed.Prepare? || e.deed.Up?)) {
      PurgeStep(later.state, e, s);
    }
  }

  /** A purge that is recorded complete left nothing behind. */
  lemma PurgedIsComplete(r: Run)
    requires IsRun(r) && r.state.receipt.status.Purged?
    ensures Gone(r.state) && r.state.receipt.created - {OperationDirectory} <= r.state.receipt.removed
  {
    RunInv(r);
  }

  /** The host-apply stage is durable and no process can still roll it back. */
  predicate HostApplied(s: State) {
    |s.receipt.completed| > 3 || (|s.receipt.completed| == 3 && HostChanges !in s.done)
  }

  lemma HostAppliedOp(s: State, pid: Pid, op: ReceiptOp)
    requires |s.receipt.completed| >= 3 && OpAllowed(s, pid, op) && ApplyOp(s.plan, s.receipt, op).Some?
    requires op.RollBackHostApply? ==> |s.receipt.completed| > 3
    ensures |ApplyOp(s.plan, s.receipt, op).value.completed| >= |s.receipt.completed|
            || |ApplyOp(s.plan, s.receipt, op).value.completed| > 3
  {
  }

  lemma HostAppliedStep(s: State, e: Event, s': State)
    requires HostApplied(s) && Step(s, e, s')
    ensures HostApplied(s')
  {
    match e
    case Act(_, _, _, _) =>
    case Save(pid, op, _, _) => HostAppliedOp(s, pid, op);
    case Commit(_, _, _, _) => assert s'.receipt.completed == s.receipt.completed;
    case _ =>
  }

  /** Volumes disappear only while Purging is durable, although their removal
      runs outside the lock: a straggler that removes after another purge
      finished finds nothing left. */
  lemma VolumesGoOnlyWhilePurging(r: Run, e: Event, s: State)
    requires IsRun(Then(r, e, s)) && r.state.volumes && !s.volumes
    ensures r.state.receipt.status.Purging? && e.RemoveVolumes?
  {
    assert e.RemoveVolumes? by { OnlyRemovalTakesVolumes(r.state, e, s); }
    RunInv(r);
  }

  /** No deed takes volumes or a published identity away, in whole or in part. */
  lemma DeedKeeps(s: State, deed: Deed, key: nat, part: State)
    requires Partly(s, Applied(s, deed, key), part)
    ensures s.volumes ==> part.volumes
    ensures !deed.Prepare? && !deed.Up? ==> part.volumes == s.volumes
    ensures !deed.Prepare? && !deed.Up? && !deed.StartControlPlane? && Gone(s) ==> Gone(part)
    ensures part.identities == s.identities || s.identities == {}
  {
  }

  lemma OnlyRemovalTakesVolumes(s: State, e: Event, s': State)
    requires Step(s, e, s') && s.volumes && !s'.volumes
    ensures e.RemoveVolumes? && PurgeStarted(s.receipt)
  {
    if e.Act? { DeedKeeps(s, e.deed, e.key, s'.(upIssued := s.upIssued, done := s.done)); }
  }

  // ---- The install ladder ----

  lemma DeedOrder(s: State, pid: Pid, deed: Deed, stage: Stage)
    requires DeedAllowed(s, pid, deed) && deed in StageDeeds(s.plan, stage) && StatusCoherent(s.receipt)
    requires HasActiveUpdate(s.receipt) ==> s.receipt.status.Succeeded?
    ensures |s.receipt.completed| >= Rank(stage)
  {
  }

  /** Completed stages always are an initial part of the stage sequence, and the
      effect of a stage is issued only when every earlier stage is durable. */
  lemma LadderOrder(r: Run, e: Event, s: State, stage: Stage)
    requires IsRun(Then(r, e, s)) && e.Act? && e.deed in StageDeeds(r.state.plan, stage)
    ensures Contiguous(r.state.receipt.completed) && |r.state.receipt.completed| >= Rank(stage)
  {
    RunInv(r);
    DeedOrder(r.state, e.pid, e.deed, stage);
  }

  /** The two changes that give stages back: Compose recovery, and a host apply
      that undoes a stage whose save failed without saying what it left. */
  predicate GivesBackStages(e: Event) {
    e.Save? && (e.op.ComposeRetry? || e.op.RollBackHostApply?)
  }

  ghost predicate KeptStages(earlier: Run, later: Run) {
    earlier == later || (later.Then? && !GivesBackStages(later.event) && KeptStages(earlier, later.run))
  }

  lemma StagesStep(s: State, e: Event, s': State)
    requires Inv(s) && Step(s, e, s') && !GivesBackStages(e)
    ensures s.receipt.completed <= s'.receipt.completed && |s'.receipt.completed| <= |s.receipt.completed| + 1
  {
    if e.Save? && KeepsStages(e.op) { StatusChanged(s, e.pid, e.op); }
    if e.Save? && e.op.Complete? { StageCompleted(s.plan, s.receipt, e.op.stage); }
  }

  /** Durable stages never shrink otherwise, over any sequence of crashed runs. */
  lemma {:induction false} StagesGrow(earlier: Run, later: Run)
    requires IsRun(later) && KeptStages(earlier, later)
    ensures earlier.state.receipt.completed <= later.state.receipt.completed
  {
    if earlier != later {
      StagesGrow(earlier, later.run);
      RunInv(later.run);
      StagesStep(later.run.state, later.event, later.state);
    }
  }

  /** Compose recovery gives back exactly the stages from Compose startup on. */
  lemma RecoveryGivesBack(r: Run, e: Event, s: State)
    requires IsRun(Then(r, e, s)) && e.Save? && e.op.ComposeRetry? && e.applied
    ensures s.receipt.completed == r.state.receipt.completed[..Rank(ComposeStarted)]
    ensures |r.state.receipt.completed| >= Rank(ComposeStarted) && s.receipt.status.Failed?
  {
    assert s.receipt == PrepareComposeRetry(r.state.receipt).value;
    RunInv(r);
    RetryPrepared(r.state.receipt);
  }

  /** Since the lock was last taken, a save of the host-apply stage took hold
      although it reported a failure. */
  ghost predicate HostApplyInDoubt(r: Run) {
    && r.Then? && !r.event.Acquire?
    && ((r.event.Save? && r.event.op == Complete(HostApply) && r.event.applied && !r.event.ok)
        || HostApplyInDoubt(r.run))
  }

  predicate MayRollBack(s: State) {
    HostChanges in s.done && |s.receipt.completed| == 3
  }

  lemma DoubtStep(s: State, e: Event, s': State)
    requires Inv(s) && Step(s, e, s') && MayRollBack(s') && !MayRollBack(s)
    ensures e.Save? && e.op == Complete(HostApply) && e.applied && !e.ok
  {
    match e
    case Save(pid, op, _, applied) => if applied { DoubtOp(s, pid, op); }
    case _ =>
  }

  lemma DoubtOp(s: State, pid: Pid, op: ReceiptOp)
    requires Inv(s) && OpAllowed(s, pid, op) && ApplyOp(s.plan, s.receipt, op).Some?
    ensures var stages := |ApplyOp(s.plan, s.receipt, op).value.completed|;
            stages == 3 && |s.receipt.completed| != 3 ==> op == Complete(HostApply)
  {
    match op
    case ComposeRetry => RetryPrepared(s.receipt);
    case Complete(stage) => StageCompleted(s.plan, s.receipt, stage);
    case _ =>
  }

  lemma {:induction false} OnlyDoubtRollsBack(r: Run)
    requires IsRun(r) && MayRollBack(r.state)
    ensures HostApplyInDoubt(r)
  {
    if r.Then? {
      RunInv(r.run);
      if MayRollBack(r.run.state) { OnlyDoubtRollsBack(r.run); } else { DoubtStep(r.run.state, r.event, r.state); }
    }
  }

  /** In every run the durable stages shrink exactly when Compose recovery gives
      back stages from Compose startup on, or a host apply takes back its own stage;
      the latter only after that stage's save failed although it took hold. */
  lemma ShrinksExactly(r: Run, e: Event, s: State)
    requires IsRun(Then(r, e, s))
    ensures var stages := |r.state.receipt.completed|;
            |s.receipt.completed| < stages <==>
            && e.Save? && e.applied
            && ((e.op.ComposeRetry? && stages > Rank(ComposeStarted)) || (e.op.RollBackHostApply? && stages == 3))
    ensures |s.receipt.completed| < |r.state.receipt.completed| && e.op.RollBackHostApply? ==>
              HostApplyInDoubt(r) && s.receipt.completed == r.state.receipt.completed[..2]
  {
    RunInv(r);
    if !GivesBackStages(e) {
      StagesStep(r.state, e, s);
    } else if e.op.ComposeRetry? {
      RetryPrepared(r.state.receipt);
    } else {
      RollBackGivesBack(r, e, s);
    }
  }

  lemma RollBackGivesBack(r: Run, e: Event, s: State)
    requires IsRun(Then(r, e, s)) && e.Save? && e.op.RollBackHostApply?
    ensures |s.receipt.completed| < |r.state.receipt.completed| <==> e.applied && |r.state.receipt.completed| == 3
    ensures |s.receipt.completed| < |r.state.receipt.completed| ==>
              HostApplyInDoubt(r) && s.receipt.completed == r.state.receipt.completed[..2]
  {
    if |r.state.receipt.completed| == 3 { OnlyDoubtRollsBack(r); }
  }

  /** `pid` did `deed` successfully since it took the lock and last saved. */
  ghost predicate DidSince(r: Run, pid: Pid, deed: Deed) {
    && r.Then?
    && ((r.event.Act? && r.event.pid == pid && r.event.deed == deed && r.event.ok)
        || (!r.event.Acquire? && !r.event.Unlock? && !((r.event.Save? || r.event.Commit?) && r.event.ok)
            && DidSince(r.run, pid, deed)))
  }

  lemma {:induction false} DoneMeans(r: Run, deed: Deed)
    requires IsRun(r) && deed in r.state.done
    ensures r.state.lock.Some? && DidSince(r, r.state.lock.value, deed)
  {
    if r.Then? {
      DoneStep(r.run.state, r.event, r.state, deed);
      if deed in r.run.state.done { DoneMeans(r.run, deed); }
    }
  }

  lemma DoneStep(s: State, e: Event, s': State, deed: Deed)
    requires Step(s, e, s') && deed in s'.done
    ensures s'.lock == s.lock
    ensures || (e.Act? && s.lock == Some(e.pid) && e.deed == deed && e.ok)
            || (deed in s.done && !e.Acquire? && !e.Unlock? && !((e.Save? || e.Commit?) && e.ok))
  {
    match e
    case Act(_, _, _, _) =>
    case _ =>
  }

  /** A stage is recorded only by a process that itself completed the stage's
      effects under the same lock. */
  lemma StagesAreEarned(r: Run, e: Event, s: State, deed: Deed)
    requires IsRun(Then(r, e, s)) && e.Save?
    requires || (e.op.Complete? && deed in StageDeeds(r.state.plan, e.op.stage))
             || (e.op.CompleteUpdate? && deed in UpdateDeeds(e.op.updateStage))
    ensures DidSince(r, e.pid, deed)
  {
    DoneMeans(r, deed);
  }

  // ---- Runner identity and the privileged attestation ----

  /** At most one Runner identity is ever published, whatever crashes between
      enrollment and its record, and a recorded enrollment has one. */
  lemma {:induction false} OneIdentity(earlier: Run, later: Run)
    requires IsRun(later) && Continues(earlier, later)
    ensures earlier.state.identities <= later.state.identities && |later.state.identities| <= 1
    ensures |later.state.receipt.completed| > Rank(RunnerEnrolled) ==> later.state.identities != {}
  {
    if earlier != later {
      OneIdentity(earlier, later.run);
      IdentityStep(later.run.state, later.event, later.state);
    }
    RunInv(later);
  }

  lemma IdentityStep(s: State, e: Event, s': State)
    requires Step(s, e, s')
    ensures s'.identities == s.identities || s.identities == {}
  {
    if e.Act? { DeedKeeps(s, e.deed, e.key, s'.(upIssued := s.upIssued, done := s.done)); }
  }

  /** The privileged helper's last verification for `pid` was of `plan`, which was
      then the plan on disk. */
  ghost predicate VerifiedPlan(r: Run, pid: Pid, plan: Plan) {
    r.Then? && if r.event.Attest? && r.event.pid == pid then r.event.plan == plan && Shows(r.run.state, plan)
               else VerifiedPlan(r.run, pid, plan)
  }

  lemma {:induction false} AttestedMeans(r: Run, pid: Pid)
    requires IsRun(r) && pid in r.state.attested
    ensures VerifiedPlan(r, pid, r.state.attested[pid])
  {
    if r.Then? && !(r.event.Attest? && r.event.pid == pid) {
      assert pid in r.run.state.attested && r.run.state.attested[pid] == r.state.attested[pid];
      AttestedMeans(r.run, pid);
    }
  }

  predicate NeedsVerifiedPlan(e: Event) {
    || (e.Act? && (ChangesSource(e.deed) || ChangesFiles(e.deed)))
    || (e.Save? && (ChangesUpdates(e.op) || e.op.ComposeRetry?))
    || e.Commit?
  }

  /** An update or Compose recovery acts only on the plan its own privileged
      verification saw, whatever changed between its lock windows. */
  lemma ActsOnVerifiedPlan(r: Run, e: Event, s: State)
    requires IsRun(Then(r, e, s)) && NeedsVerifiedPlan(e)
    ensures VerifiedPlan(r, e.pid, r.state.plan)
  {
    NeedsAttested(r.state, e, s);
    AttestedMeans(r, e.pid);
  }

  lemma NeedsAttested(s: State, e: Event, s': State)
    requires Step(s, e, s') && NeedsVerifiedPlan(e)
    ensures e.pid in s.attested && s.attested[e.pid] == s.plan
  {
  }

  // ---- Pending commits ----

  /** Since `earlier` recovery was attempted only by processes that found the
      operation clean when they started after it. */
  ghost predicate OnlyNewOpeners(earlier: Run, later: Run) {
    || earlier == later
    || (later.Then? && OnlyNewOpeners(earlier, later.run)
        && (later.event.Repair? ==> !later.event.direct && later.event.pid !in earlier.state.passed))
  }

  lemma PendingStep(s: State, e: Event, s': State)
    requires Step(s, e, s') && !s.files.Tidy? && !e.Repair?
    ensures s'.files == s.files && s'.passed == s.passed && s'.plan == s.plan && s'.receipt == s.receipt
  {
  }

  /** A pending commit is never repaired by the commands that start with a
      read-only opening: whatever they do, files and pair stay as they are. Update
      resume, to which the refusal directs the operator, is one of them. */
  lemma {:induction false} PendingForever(earlier: Run, later: Run)
    requires IsRun(later) && OnlyNewOpeners(earlier, later) && !earlier.state.files.Tidy?
    ensures later.state.files == earlier.state.files && later.state.passed == earlier.state.passed
    ensures later.state.plan == earlier.state.plan && later.state.receipt == earlier.state.receipt
  {
    if earlier != later {
      PendingForever(earlier, later.run);
      PendingStep(later.run.state, later.event, later.state);
    }
  }

  /** Commands that start with recovery repair it, unless nothing can. */
  lemma RepairPossible(s: State, pid: Pid)
    requires s.lock == Some(pid) && !s.files.Lost?
    ensures Step(s, Repair(pid, true, true), s.(files := Tidy))
  {
  }

  /** A lost commit stays lost, whoever tries to recover it. */
  lemma {:induction false} LostForever(earlier: Run, later: Run)
    requires IsRun(later) && Continues(earlier, later) && earlier.state.files.Lost?
    ensures later.state.files.Lost? && later.state.plan == earlier.state.plan
            && later.state.receipt == earlier.state.receipt
  {
    if earlier != later {
      LostForever(earlier, later.run);
      if !later.event.Repair? { PendingStep(later.run.state, later.event, later.state); }
    }
  }
}
