/** A limit of the protocol: an ordinarily uninstalled deployment whose resume
    records a failed check can never be brought back by any command. */
module StuckRestore {
  import opened Outcome
  import opened InstallReceipt
  import opened Protocol
  import opened ProtocolSafety
  import opened ProtocolTheorems

  /** Recorded as failed after an uninstall, with Compose down and no readiness
      proof outstanding. */
  predicate Stuck(s: State) {
    && s.receipt.status.Failed? && |s.receipt.completed| == STAGE_COUNT && s.receipt.removed == {ComposeProject}
    && !HasActiveUpdate(s.receipt) && s.control.Stopped? && ProveReady !in s.done
  }

  // ---- It is never left ----

  lemma StuckOp(s: State, pid: Pid, op: ReceiptOp)
    requires Stuck(s) && OpAllowed(s, pid, op) && ApplyOp(s.plan, s.receipt, op).Some?
    ensures ApplyOp(s.plan, s.receipt, op).value == s.receipt.(failure := ApplyOp(s.plan, s.receipt, op).value.failure)
  {
  }

  lemma StuckStep(s: State, e: Event, s': State)
    requires Stuck(s) && Step(s, e, s')
    ensures Stuck(s') && !(e.Act? && (e.deed.Prepare? || e.deed.Up? || e.deed.StartControlPlane?))
  {
    match e
    case Act(_, deed, _, _) => assert !LadderAt(s, ComposeStarted);
    case Save(pid, op, _, _) => StuckOp(s, pid, op);
    case _ =>
  }

  /** No sequence of commands leaves it: resume cannot prove readiness, Compose
      recovery refuses a removed project, uninstall wants a success and purge an
      uninstall. */
  lemma {:induction false} StuckForever(earlier: Run, later: Run)
    requires IsRun(later) && Continues(earlier, later) && Stuck(earlier.state)
    ensures Stuck(later.state)
  {
    if earlier != later {
      StuckForever(earlier, later.run);
      StuckStep(later.run.state, later.event, later.state);
    }
  }

  // ---- Where the control plane serves ----

  /** An installation past Compose startup that did not fail after completion. */
  predicate InService(r: Receipt) {
    && !HasActiveUpdate(r) && |r.completed| > Rank(ComposeStarted)
    && (r.status.Running? || r.status.Succeeded? || (r.status.Failed? && |r.completed| < STAGE_COUNT))
  }

  predicate MustServe(s: State) {
    || InService(s.receipt)
    || UpdateProgress(s.receipt) > 5
    || (Up in s.done && (s.receipt.status.Uninstalled? || LadderAt(s, ComposeStarted)))
    || (ProveReady in s.done && s.receipt.status.Failed? && |s.receipt.completed| == STAGE_COUNT)
  }

  /** The control plane runs wherever the journal says it should. */
  predicate ServingInv(s: State) {
    MustServe(s) ==> s.control.Serving?
  }

  lemma ServingAct(s: State, e: Event, s': State)
    requires ServingInv(s) && e.Act? && ActStep(s, e, s')
             && (HasActiveUpdate(s.receipt) ==> s.receipt.status.Succeeded?)
    ensures ServingInv(s')
  {
    if e.deed.Down? {
      ServingDown(s, e, s');
    } else if ChangesSource(e.deed) {
      assert HasActiveUpdate(s.receipt) && UpdateProgress(s.receipt) <= 4;
    } else {
      assert s'.control == s.control || s'.control.Serving?;
    }
  }

  lemma ServingDown(s: State, e: Event, s': State)
    requires ServingInv(s) && e.Act? && e.deed.Down? && ActStep(s, e, s')
    requires HasActiveUpdate(s.receipt) ==> s.receipt.status.Succeeded?
    ensures ServingInv(s')
  {
    assert Up !in s'.done;
  }

  lemma ServingInstallOp(s: State, pid: Pid, op: ReceiptOp)
    requires ServingInv(s) && OpAllowed(s, pid, op) && !ChangesUpdates(op) && StatusCoherent(s.receipt)
    requires ApplyOp(s.plan, s.receipt, op).Some? && (HasActiveUpdate(s.receipt) ==> s.receipt.status.Succeeded?)
    ensures InService(ApplyOp(s.plan, s.receipt, op).value) ==> s.control.Serving?
    ensures ApplyOp(s.plan, s.receipt, op).value.updates == s.receipt.updates
  {
    match op
    case Complete(stage) =>
      assert |ApplyOp(s.plan, s.receipt, op).value.completed| == Rank(stage) + 1;
      if stage.ComposeStarted? { assert Up in StageDeeds(s.plan, stage); }
    case _ =>
  }

  lemma ServingSave(s: State, e: Event, s': State)
    requires ServingInv(s) && Inv(s) && e.Save? && SaveStep(s, e, s')
    ensures ServingInv(s')
  {
    assert Up !in s'.done && ProveReady !in s'.done;
    if !e.applied {
    } else if ChangesUpdates(e.op) {
      UpdateOpAdvances(s.plan, s.receipt, e.op);
      if e.op.CompleteUpdate? && e.op.updateStage.UpdateComposeStarted? { assert Up in UpdateDeeds(e.op.updateStage); }
    } else {
      ServingInstallOp(s, e.pid, e.op);
    }
  }

  lemma ServingStep(s: State, e: Event, s': State)
    requires ServingInv(s) && Inv(s) && Step(s, e, s')
    ensures ServingInv(s')
  {
    match e
    case Act(_, _, _, _) => ServingAct(s, e, s');
    case Save(_, _, _, _) => ServingSave(s, e, s');
    case Commit(_, _, _, _) => FinishedCoherent(s, e.now);
    case _ =>
  }

  /** In every run, wherever the journal says the deployment is up, its control
      plane runs; a succeeded installation without an update is such a place. */
  lemma {:induction false} InServiceServes(r: Run)
    requires IsRun(r)
    ensures ServingInv(r.state)
  {
    match r
    case Start(_) =>
    case Then(p, e, s) =>
      InServiceServes(p);
      RunInv(p);
      ServingStep(p.state, e, s);
  }

  // ---- How it is entered ----

  predicate EntersStuck(s: State, e: Event) {
    s.receipt.status.Uninstalled? && s.control.Stopped? && e.Save? && e.op.Fail? && e.applied
  }

  /** Saves that end failed, complete and torn down start uninstalled, or there. */
  lemma FailingOp(s: State, pid: Pid, op: ReceiptOp)
    requires InstallCoherent(s.receipt) && OpAllowed(s, pid, op) && ApplyOp(s.plan, s.receipt, op).Some?
    requires HasActiveUpdate(s.receipt) ==> s.receipt.status.Succeeded?
    requires var x := ApplyOp(s.plan, s.receipt, op).value;
             x.status.Failed? && |x.completed| == STAGE_COUNT && x.removed == {ComposeProject} && !HasActiveUpdate(x)
    ensures s.receipt.removed == {ComposeProject} && |s.receipt.completed| == STAGE_COUNT && !HasActiveUpdate(s.receipt)
    ensures s.receipt.status.Uninstalled? || s.receipt.status.Succeeded? || s.receipt.status.Failed?
    ensures s.receipt.status.Failed? || op.Fail?
  {
  }

  lemma EnteredOnlyThen(s: State, e: Event, s': State)
    requires Inv(s) && ServingInv(s) && !Stuck(s) && Step(s, e, s') && Stuck(s')
    ensures EntersStuck(s, e)
  {
    match e
    case Act(_, _, _, _) => StuckNotActed(s, e, s');
    case Save(pid, op, _, applied) => if applied { FailingOp(s, pid, op); }
    case _ =>
  }

  lemma StuckNotActed(s: State, e: Event, s': State)
    requires !Stuck(s) && e.Act? && ActStep(s, e, s')
    ensures !Stuck(s')
  {
    if s.receipt.status.Failed? && |s.receipt.completed| == STAGE_COUNT && !HasActiveUpdate(s.receipt) {
      assert !e.deed.Down? && !ChangesSource(e.deed);
      assert s'.control == s.control && s.done <= s'.done;
    }
  }

  /** In every run it is entered exactly when a resume's failed check becomes
      durable on an uninstalled deployment whose Compose is down. */
  lemma StuckExactlyWhen(r: Run, e: Event, s: State)
    requires IsRun(Then(r, e, s)) && !Stuck(r.state)
    ensures Stuck(s) <==> EntersStuck(r.state, e)
  {
    RunInv(r);
    InServiceServes(r);
    if Stuck(s) { EnteredOnlyThen(r.state, e, s); }
  }
}
