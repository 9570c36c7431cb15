/** What every run of the protocol keeps true. */
module ProtocolSafety {
  import opened Outcome
  import opened InstallReceipt
  import opened Protocol

  // ---- One receipt change keeps the durable pair coherent ----

  predicate ChangesUpdates(op: ReceiptOp) {
    op.Begin? || op.CompleteUpdate? || op.FailUpdateAt?
  }

  /** Recording the next stage with its resources is never refused. */
  lemma StageCompleted(p: Plan, r: Receipt, stage: Stage)
    requires InstallCoherent(r) && (r.status.Running? || r.status.Failed?)
    requires |r.completed| == Rank(stage) && (stage.AssetsMaterialized? ==> MATERIALIZED <= r.created)
    ensures var next := ApplyOp(p, r, Complete(stage));
            && next.Some? && InstallCoherent(next.value)
            && next.value.completed == r.completed + [stage] && next.value.updates == r.updates
            && next.value.created == r.created + StageResources(stage)
            && next.value.pending == r.pending && next.value.removed == r.removed
            && next.value.status == (if stage.SmokeExecution? then Succeeded else Running)
  {
    assert Rank(r.completed[|r.completed| - 1]) == |r.completed| - 1;
  }

  /** Compose recovery leaves exactly the stages before Compose startup, and
      drops exactly the resources the replay records again. */
  lemma RetryPrepared(r: Receipt)
    requires InstallCoherent(r) && PrepareComposeRetry(r).Some?
    ensures var next := PrepareComposeRetry(r).value;
            && InstallCoherent(next) && |r.completed| >= 7 && next.completed == r.completed[..7]
            && next.updates == r.updates
            && next.failure == Some(ComposeStarted) && next.removed == {} && next.created == r.created - REPLAY_OWNED
  {
  }

  predicate KeepsStages(op: ReceiptOp) {
    !ChangesUpdates(op) && !op.Complete? && !op.ComposeRetry? && !op.RollBackHostApply?
  }

  lemma StatusChanged(s: State, pid: Pid, op: ReceiptOp)
    requires InstallCoherent(s.receipt) && OpAllowed(s, pid, op) && KeepsStages(op)
    requires ApplyOp(s.plan, s.receipt, op).Some?
    ensures var next := ApplyOp(s.plan, s.receipt, op).value;
            && next.updates == s.receipt.updates && next.completed == s.receipt.completed
            && InstallCoherent(next)
  {
    var next := ApplyOp(s.plan, s.receipt, op).value;
    assert |next.completed| == 12 <== EndsInSmoke(next);
    assert StatusCoherent(next);
  }

  lemma InstallOpKeeps(s: State, pid: Pid, op: ReceiptOp)
    requires InstallCoherent(s.receipt) && OpAllowed(s, pid, op) && !ChangesUpdates(op)
    requires ApplyOp(s.plan, s.receipt, op).Some?
    ensures var next := ApplyOp(s.plan, s.receipt, op).value;
            next.updates == s.receipt.updates && InstallCoherent(next)
  {
    match op
    case Complete(stage) => StageCompleted(s.plan, s.receipt, stage);
    case ComposeRetry => RetryPrepared(s.receipt);
    case RollBackHostApply =>
    case _ => StatusChanged(s, pid, op);
  }

  /** No installation change is proposed during an update, except by a purge,
      which cannot have started. */
  lemma InstallOpIdle(s: State, pid: Pid, op: ReceiptOp)
    requires OpAllowed(s, pid, op) && !ChangesUpdates(op) && ApplyOp(s.plan, s.receipt, op).Some?
    requires HasActiveUpdate(s.receipt) ==> s.receipt.status.Succeeded?
    ensures !HasActiveUpdate(s.receipt)
  {
  }

  lemma InstallOpCoherent(s: State, pid: Pid, op: ReceiptOp)
    requires Coherent(s.plan, s.receipt) && OpAllowed(s, pid, op) && !ChangesUpdates(op)
    requires ApplyOp(s.plan, s.receipt, op).Some?
    ensures var next := ApplyOp(s.plan, s.receipt, op).value;
            next.updates == s.receipt.updates && Coherent(s.plan, next)
  {
    InstallOpKeeps(s, pid, op);
    InstallOpIdle(s, pid, op);
  }

  /** Replacing the last update by a valid one of the same identity. */
  lemma LatestReplaced(p: Plan, r: Receipt, u: UpdateRecord)
    requires |r.updates| > 0 && HasActiveUpdate(r) && Coherent(p, r)
    requires ValidUpdate(u) && !u.status.UpdateSucceeded?
    requires u.id == LatestUpdate(r).id && u.source == LatestUpdate(r).source && u.target == LatestUpdate(r).target
    ensures Coherent(p, WithLatest(r, u)) && HasActiveUpdate(WithLatest(r, u)) && LatestUpdate(WithLatest(r, u)) == u
  {
  }

  lemma StageAppended(r: Receipt, stage: UpdateStage, subject: string)
    requires HasActiveUpdate(r) && ValidUpdate(LatestUpdate(r))
    requires CompleteUpdateStage(r, stage, subject).Some? && !stage.UpdateSmoke?
    requires stage.ActivationStarted? ==> subject != ""
    ensures ValidUpdate(LatestUpdate(CompleteUpdateStage(r, stage, subject).value))
  {
  }

  function FirstRecord(p: Plan, id: nat, target: Release): UpdateRecord {
    UpdateRecord(id, p.release, target, UpdateRunning, None, [UpdatePreflight], "", 0)
  }

  lemma BegunShape(p: Plan, r: Receipt, id: nat, target: Release)
    requires BeginUpdate(r, id, p.release, target).Some?
    ensures ApplyOp(p, r, Begin(id, target)) == Some(r.(updates := r.updates + [FirstRecord(p, id, target)]))
  {
    var begun := BeginUpdate(r, id, p.release, target).value;
    assert begun.updates[..|r.updates|] == r.updates;
    assert LatestUpdate(begun).stages + [UpdatePreflight] == [UpdatePreflight];
  }

  lemma RecordAppended(p: Plan, r: Receipt, u: UpdateRecord)
    requires Coherent(p, r) && !HasActiveUpdate(r) && r.status.Succeeded?
    requires ValidUpdate(u) && !u.status.UpdateSucceeded? && u.source == p.release
    requires forall i :: 0 <= i < |r.updates| ==> r.updates[i].id != u.id
    ensures Coherent(p, r.(updates := r.updates + [u]))
  {
    AppendedValid(r.updates, u);
    AppendedHistory(p, r, u);
  }

  lemma AppendedValid(updates: seq<UpdateRecord>, u: UpdateRecord)
    requires ValidUpdates(updates) && ValidUpdate(u)
             && (|updates| > 0 ==> updates[|updates| - 1].status.UpdateSucceeded?)
    requires forall i :: 0 <= i < |updates| ==> updates[i].id != u.id
    ensures ValidUpdates(updates + [u])
  {
  }

  lemma AppendedHistory(p: Plan, r: Receipt, u: UpdateRecord)
    requires HistoryCoherent(p, r) && !HasActiveUpdate(r) && !u.status.UpdateSucceeded? && u.source == p.release
    ensures HistoryCoherent(p, r.(updates := r.updates + [u]))
  {
  }

  lemma UpdateBegun(p: Plan, r: Receipt, id: nat, target: Release)
    requires Coherent(p, r) && BeginUpdate(r, id, p.release, target).Some?
    ensures ApplyOp(p, r, Begin(id, target)).Some?
    ensures var next := ApplyOp(p, r, Begin(id, target)).value; Coherent(p, next) && UpdateProgress(next) == 1
  {
    BegunShape(p, r, id, target);
    RecordAppended(p, r, FirstRecord(p, id, target));
  }

  lemma UpdateOpCoherent(s: State, pid: Pid, op: ReceiptOp)
    requires Coherent(s.plan, s.receipt) && OpAllowed(s, pid, op) && ChangesUpdates(op)
    requires ApplyOp(s.plan, s.receipt, op).Some? && (HasActiveUpdate(s.receipt) ==> UpdateProgress(s.receipt) > 0)
    ensures var next := ApplyOp(s.plan, s.receipt, op).value;
            Coherent(s.plan, next) && UpdateProgress(next) > 0
  {
    var r := s.receipt;
    match op
    case Begin(id, target) => UpdateBegun(s.plan, r, id, target);
    case CompleteUpdate(stage, subject) =>
      StageAppended(r, stage, subject);
      LatestReplaced(s.plan, r, LatestUpdate(CompleteUpdateStage(r, stage, subject).value));
    case FailUpdateAt(stage) =>
      LatestReplaced(s.plan, r, LatestUpdate(r).(status := UpdateFailed, failure := Some(stage)));
  }

  lemma FinishedCoherent(s: State, now: nat)
    requires Coherent(s.plan, s.receipt) && UpdateProgress(s.receipt) == 8
    requires FinishedUpdate(s.plan, s.receipt, now).Some?
    ensures var (plan, receipt) := FinishedUpdate(s.plan, s.receipt, now).value;
            && Coherent(plan, receipt) && !HasActiveUpdate(receipt)
            && plan.release == LatestUpdate(s.receipt).target
  {
  }

  // ---- Every event keeps the invariant ----

  /** Deeds that inspect or stage leave the deployment alone. */
  predicate Inspects(deed: Deed) {
    !ChangesSource(deed) && !ChangesFiles(deed) && !deed.Up? && !deed.Prepare? && !deed.Down? && !deed.Enroll?
  }

  predicate ChangesSource(deed: Deed) {
    deed.StopControlPlane? || deed.StartControlPlane? || deed.SourceDown?
  }

  predicate ChangesFiles(deed: Deed) {
    deed.ActivateArtifacts? || deed.PublishManifest?
  }

  lemma InspectionShape(s: State, e: Event, s': State)
    requires e.Act? && ActStep(s, e, s') && Inspects(e.deed)
    ensures s' == s.(done := s'.done) && s.lock.Some?
    ensures s'.done == s.done || (s'.done == s.done + {e.deed} && !e.deed.Quiesce?)
            || (s'.done == s.done + {e.deed} && e.deed == Quiesce(false))
            || (s'.done == s.done + {e.deed} && e.deed == Quiesce(true) && StopControlPlane in s.done
                && UpdateProgress(s.receipt) == 3 && !s.active)
  {
  }

  lemma InspectionKeepsWorld(s: State, e: Event, s': State)
    requires WorldInv(s) && e.Act? && ActStep(s, e, s') && Inspects(e.deed)
    ensures WorldInv(s')
  {
    InspectionShape(s, e, s');
  }

  lemma SourceChangeShape(s: State, e: Event, s': State)
    requires e.Act? && ActStep(s, e, s') && ChangesSource(e.deed)
    ensures UpdateProgress(s.receipt) == if e.deed.SourceDown? then 4 else 3
    ensures s' == s.(control := s'.control, database := s'.database, done := s'.done) && s.lock.Some?
    ensures s'.control == s.control
            || s'.control == (if e.deed.StartControlPlane? then Serving(s.manifest) else Stopped)
    ensures e.ok && e.deed.StopControlPlane? ==> s'.control.Stopped?
    ensures e.ok && e.deed.SourceDown? ==> !s'.database
    ensures e.deed.SourceDown? ==> s'.database ==> s.database
    ensures s'.done == s.done - Overturned(e.deed) + if e.ok then {e.deed} else {}
  {
  }

  lemma SourceChangeKeepsWorld(s: State, e: Event, s': State)
    requires WorldInv(s) && e.Act? && ActStep(s, e, s') && ChangesSource(e.deed)
    requires s.receipt.volumesPurged ==> !HasActiveUpdate(s.receipt)
    ensures WorldInv(s')
  {
    SourceChangeShape(s, e, s');
  }

  lemma FileChangeShape(s: State, e: Event, s': State)
    requires e.Act? && ActStep(s, e, s') && ChangesFiles(e.deed)
    ensures UpdateProgress(s.receipt) == 4 && s.lock.Some?
    ensures s' == s.(artifacts := s'.artifacts, manifest := s'.manifest, done := s'.done)
    ensures var target := LatestUpdate(s.receipt).target;
            if e.deed.ActivateArtifacts?
            then s'.manifest == s.manifest && (s'.artifacts == target || (s'.artifacts == s.artifacts && !e.ok))
            else s'.artifacts == s.artifacts && (s'.manifest == target || (s'.manifest == s.manifest && !e.ok))
                 && ActivateArtifacts in s.done
    ensures s'.done == s.done + if e.ok then {e.deed} else {}
  {
  }

  lemma FileChangeKeepsWorld(s: State, e: Event, s': State)
    requires WorldInv(s) && e.Act? && ActStep(s, e, s') && ChangesFiles(e.deed)
    ensures WorldInv(s')
  {
    FileChangeShape(s, e, s');
  }

  lemma PrepareShape(s: State, e: Event, s': State)
    requires e.Act? && ActStep(s, e, s') && e.deed.Prepare?
    requires s.receipt.volumesPurged ==> PurgeStarted(s.receipt) && !HasActiveUpdate(s.receipt)
    ensures !s.receipt.volumesPurged && UpdateProgress(s.receipt) != 4 && s.lock.Some?
    ensures s' == s.(database := s'.database, volumes := s'.volumes, done := s'.done)
    ensures s'.done == s.done + if e.ok then {Prepare} else {}
  {
  }

  lemma PrepareKeepsWorld(s: State, e: Event, s': State)
    requires WorldInv(s) && e.Act? && ActStep(s, e, s') && e.deed.Prepare?
    requires s.receipt.volumesPurged ==> PurgeStarted(s.receipt) && !HasActiveUpdate(s.receipt)
    ensures WorldInv(s')
  {
    PrepareShape(s, e, s');
  }

  lemma UpKeepsWorld(s: State, e: Event, s': State)
    requires WorldInv(s) && e.Act? && ActStep(s, e, s') && e.deed.Up?
    requires s.receipt.volumesPurged ==> PurgeStarted(s.receipt) && !HasActiveUpdate(s.receipt)
    ensures WorldInv(s')
  {
    assert UpdateProgress(s.receipt) == 0 || UpdateProgress(s.receipt) == 5;
    assert !s.receipt.volumesPurged;
    assert s' == s.(control := s'.control, database := s'.database, volumes := s'.volumes,
                    upIssued := s'.upIssued, done := s'.done);
  }

  lemma OtherDeedShape(s: State, e: Event, s': State)
    requires e.Act? && ActStep(s, e, s') && (e.deed.Down? || e.deed.Enroll?)
    ensures UpdateProgress(s.receipt) == 0 && s.lock.Some?
    ensures s' == s.(control := s'.control, database := s'.database, identities := s'.identities, done := s'.done)
    ensures s'.control == s.control || s'.control.Stopped?
    ensures s'.database ==> s.database
    ensures s'.identities == s.identities || (s.identities == {} && s'.identities == {e.key})
    ensures Enroll in s'.done ==> Enroll in s.done || s'.identities != {}
  {
  }

  lemma OtherDeedKeepsWorld(s: State, e: Event, s': State)
    requires WorldInv(s) && e.Act? && ActStep(s, e, s') && (e.deed.Down? || e.deed.Enroll?)
    ensures WorldInv(s')
  {
    OtherDeedShape(s, e, s');
  }

  lemma ActKeepsWorld(s: State, e: Event, s': State)
    requires Inv(s) && e.Act? && ActStep(s, e, s')
    ensures WorldInv(s') && s'.plan == s.plan && s'.receipt == s.receipt
  {
    if Inspects(e.deed) { InspectionKeepsWorld(s, e, s'); }
    else if ChangesSource(e.deed) { SourceChangeKeepsWorld(s, e, s'); }
    else if ChangesFiles(e.deed) { FileChangeKeepsWorld(s, e, s'); }
    else if e.deed.Prepare? { PrepareKeepsWorld(s, e, s'); }
    else if e.deed.Up? { UpKeepsWorld(s, e, s'); }
    else { OtherDeedKeepsWorld(s, e, s'); }
  }

  lemma InstallSaveShape(s: State, e: Event, s': State)
    requires e.Save? && SaveStep(s, e, s') && !ChangesUpdates(e.op)
    ensures s' == s.(receipt := s'.receipt, done := s'.done)
    ensures s'.receipt.volumesPurged ==> s.receipt.volumesPurged || Gone(s)
    ensures |s'.receipt.completed| > 6 ==> |s.receipt.completed| > 6 || Enroll in s.done
    ensures s'.done == {} || s'.done == {HostChanges}
  {
    assert s'.done == {} || s'.done == {HostChanges} by {
      assert HostChanges in s.done ==> s.done * {HostChanges} == {HostChanges};
      assert HostChanges !in s.done ==> s.done * {HostChanges} == {};
    }
  }

  lemma InstallSaveKeepsWorld(s: State, e: Event, s': State)
    requires WorldInv(s) && e.Save? && SaveStep(s, e, s') && !ChangesUpdates(e.op)
    requires s'.receipt.updates == s.receipt.updates
    ensures WorldInv(s')
  {
    InstallSaveShape(s, e, s');
    SameWorld(s, s');
  }

  lemma SameWorld(s: State, s': State)
    requires WorldInv(s) && s' == s.(receipt := s'.receipt, done := s'.done)
    requires s'.receipt.updates == s.receipt.updates && (s'.done == {} || s'.done == {HostChanges}) && s'.lock.Some?
    requires s'.receipt.volumesPurged ==> Gone(s)
    requires |s'.receipt.completed| > 6 ==> s.identities != {}
    ensures WorldInv(s')
  {
    assert UpdateProgress(s'.receipt) == UpdateProgress(s.receipt);
  }

  /** An update change advances the journal by at most the next stage. */
  lemma UpdateOpAdvances(p: Plan, r: Receipt, op: ReceiptOp)
    requires ChangesUpdates(op) && ApplyOp(p, r, op).Some?
    ensures var next := ApplyOp(p, r, op).value;
            && next == r.(updates := next.updates) && HasActiveUpdate(next)
            && (op.Begin? ==> !HasActiveUpdate(r) && UpdateProgress(next) == 1)
            && (!op.Begin? ==> HasActiveUpdate(r) && LatestUpdate(next).target == LatestUpdate(r).target)
            && (op.CompleteUpdate? ==>
                  UpdateProgress(r) == UpdateRank(op.updateStage) && UpdateProgress(next) == UpdateProgress(r) + 1)
            && (op.FailUpdateAt? ==> UpdateProgress(next) == UpdateProgress(r))
  {
    match op
    case Begin(id, target) => BeginAdvances(p, r, id, target);
    case CompleteUpdate(stage, subject) => CompletionAdvances(r, stage, subject);
    case FailUpdateAt(_) =>
  }

  lemma BeginAdvances(p: Plan, r: Receipt, id: nat, target: Release)
    requires ApplyOp(p, r, Begin(id, target)).Some?
    ensures var next := ApplyOp(p, r, Begin(id, target)).value;
            next == r.(updates := next.updates) && HasActiveUpdate(next)
            && !HasActiveUpdate(r) && UpdateProgress(next) == 1
  {
  }

  lemma CompletionAdvances(r: Receipt, stage: UpdateStage, subject: string)
    requires CompleteUpdateStage(r, stage, subject).Some?
    ensures var next := CompleteUpdateStage(r, stage, subject).value;
            && next == r.(updates := next.updates) && HasActiveUpdate(next) && HasActiveUpdate(r)
            && LatestUpdate(next).target == LatestUpdate(r).target
            && UpdateProgress(r) == UpdateRank(stage) && UpdateProgress(next) == UpdateProgress(r) + 1
  {
  }

  lemma UpdateSaveKeepsWorld(s: State, e: Event, s': State)
    requires WorldInv(s) && e.Save? && SaveStep(s, e, s') && ChangesUpdates(e.op)
    ensures WorldInv(s')
  {
    UpdateOpAdvances(s.plan, s.receipt, e.op);
  }

  lemma CommitKeepsWorld(s: State, e: Event, s': State)
    requires Inv(s) && e.Commit? && CommitStep(s, e, s')
    ensures Inv(s')
  {
    FinishedCoherent(s, e.now);
  }

  lemma SaveKeepsInv(s: State, e: Event, s': State)
    requires Inv(s) && e.Save? && SaveStep(s, e, s')
    ensures Inv(s')
  {
    if ChangesUpdates(e.op) {
      UpdateOpCoherent(s, e.pid, e.op);
      UpdateSaveKeepsWorld(s, e, s');
    } else {
      InstallOpCoherent(s, e.pid, e.op);
      InstallSaveKeepsWorld(s, e, s');
    }
  }

  lemma StepKeepsInv(s: State, e: Event, s': State)
    requires Inv(s) && Step(s, e, s')
    ensures Inv(s')
  {
    match e
    case Act(_, _, _, _) => ActKeepsWorld(s, e, s');
    case Save(_, _, _, _) => SaveKeepsInv(s, e, s');
    case Commit(_, _, _, _) => CommitKeepsWorld(s, e, s');
    case _ =>
  }
}
