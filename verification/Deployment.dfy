/** The host as one process of a command sees it. Every method lets any other
    processes run first, then performs one event of the protocol, whose guard is
    its precondition; the outcome is arbitrary, and may be the caller's death. */
module Deployment {
  import opened Outcome
  import opened InstallReceipt
  import opened Protocol
  import opened ProtocolTheorems

  predicate ByOther(e: Event, me: Pid) {
    e.Sandboxes? || e.pid != me
  }

  /** All that others can change while this process holds the lock. */
  predicate Held(s: State, s': State) {
    && s' == s.(control := s'.control, database := s'.database, active := s'.active, volumes := s'.volumes,
                passed := s'.passed)
    && (!PurgeStarted(s.receipt) ==> s'.control == s.control && s'.database == s.database && s'.volumes == s.volumes)
    && (s'.control == s.control || s'.control.Stopped?)
    && (s'.active ==> s.active || s.control.Serving?)
  }

  /** What survives any steps of others, lock or not. */
  predicate Stable(s: State, s': State, me: Pid) {
    && (me in s.attested ==> me in s'.attested && s'.attested[me] == s.attested[me])
    && Lasting(s, s', me)
  }

  /** The same without what the helper verified for this process. */
  predicate Lasting(s: State, s': State, me: Pid) {
    && (me in s.passed ==> me in s'.passed)
    && (HostApplied(s) ==> HostApplied(s'))
    && (PurgeStarted(s.receipt) ==>
          PurgeAdvanced(s.receipt, s'.receipt) && s'.plan == s.plan && (Gone(s) ==> Gone(s')))
  }

  /** What a process relies on between its lock windows. */
  predicate KeepsOwn(s: State, s': State, me: Pid) {
    && (me in s.attested ==> me in s'.attested && s'.attested[me] == s.attested[me])
    && (me in s.passed ==> me in s'.passed) && (HostApplied(s) ==> HostApplied(s'))
  }

  /** What the holder's own recovery of a pending commit changes besides. */
  predicate Reread(s: State, s': State) {
    && Held(s.(files := s'.files), s')
    && (s.files.Tidy? ==> s'.files.Tidy?) && (s.files.Lost? <==> s'.files.Lost?)
  }

  lemma OtherStep(s: State, e: Event, s': State, me: Pid)
    requires Step(s, e, s') && ByOther(e, me) && (PurgeStarted(s.receipt) ==> !HasActiveUpdate(s.receipt))
    ensures Stable(s, s', me)
    ensures s.lock != Some(me) ==> s'.lock != Some(me)
    ensures s.lock == Some(me) ==> Held(s, s')
  {
    if PurgeStarted(s.receipt) { PurgeStep(s, e, s'); }
    if HostApplied(s) { HostAppliedStep(s, e, s'); }
    if s.lock == Some(me) { LockExcludes(s, e, s', me); }
  }

  lemma LockExcludes(s: State, e: Event, s': State, me: Pid)
    requires Step(s, e, s') && ByOther(e, me) && s.lock == Some(me)
    ensures Held(s, s')
  {
  }

  lemma NoUpdateWhilePurging(r: Run)
    requires IsRun(r)
    ensures PurgeStarted(r.state.receipt) ==> !HasActiveUpdate(r.state.receipt)
  {
    RunInv(r);
  }

  /** A guard that held when the caller looked still holds after others ran. */
  lemma GuardsSurvive(s: State, s': State, me: Pid, op: ReceiptOp)
    requires s.lock == Some(me) && Held(s, s') && Stable(s, s', me) && OpAllowed(s, me, op)
    requires op.VolumesPurged? ==> PurgeStarted(s.receipt)
    ensures OpAllowed(s', me, op)
  {
  }

  lemma DeedSurvives(s: State, s': State, me: Pid, deed: Deed)
    requires s.lock == Some(me) && Held(s, s') && DeedAllowed(s, me, deed)
    ensures DeedAllowed(s', me, deed)
  {
  }

  predicate IsDeed(e: Event, me: Pid, deed: Deed) {
    e.Act? && e.pid == me && e.deed == deed
  }

  /** An allowed effect can always be issued: it may simply fail. */
  lemma DeedPossible(s: State, me: Pid, deed: Deed)
    requires s.lock == Some(me) && DeedAllowed(s, me, deed)
    ensures IsDeed(Act(me, deed, false, 0), me, deed) && Step(s, Act(me, deed, false, 0), Recorded(s, s, deed, false))
  {
    var next := Recorded(s, s, deed, false);
    assert next.(upIssued := s.upIssued, done := s.done) == s;
  }

  lemma DeedOutcome(r: Run, e: Event, next: State, me: Pid, deed: Deed)
    requires IsRun(r) && IsDeed(e, me, deed) && Step(r.state, e, next)
    ensures IsRun(Then(r, e, next)) && Stable(r.state, next, me)
    ensures next.lock == Some(me) && next.files == r.state.files
    ensures next.plan == r.state.plan && next.receipt == r.state.receipt
    ensures next.done == r.state.done - Overturned(deed) + (if e.ok then {deed} else {})
  {
    OwnStepStable(r, e, next);
  }

  /** The state after saving `next`, which reported `ok` and took hold iff `applied`. */
  function Saved(s: State, next: Receipt, e: Event): State
    requires e.Save?
  {
    s.(receipt := if e.applied then next else s.receipt, done := if e.ok then {} else s.done * {HostChanges},
       upIssued := s.upIssued && !(e.applied && JournalsBoundary(e.op)))
  }

  lemma SaveEnabled(r: Run, e: Event, next: Receipt)
    requires IsRun(r) && e.Save? && r.state.lock == Some(e.pid) && r.state.files.Tidy?
    requires OpAllowed(r.state, e.pid, e.op)
    requires ApplyOp(r.state.plan, r.state.receipt, e.op) == Some(next) && (e.ok ==> e.applied)
    ensures IsRun(Then(r, e, Saved(r.state, next, e))) && Stable(r.state, Saved(r.state, next, e), e.pid)
  {
    OwnStepStable(r, e, Saved(r.state, next, e));
  }

  function Activated(s: State, plan: Plan, receipt: Receipt, applied: bool, files: CommitFiles): State {
    (if applied then s.(plan := plan, receipt := receipt) else s).(done := {}, files := files)
  }

  predicate CommitReady(s: State, me: Pid, now: nat, plan: Plan, receipt: Receipt) {
    && s.lock == Some(me) && s.files.Tidy? && Updating(s, me, 8)
    && {Smoke, ValidateActivated, CleanUpStaging} <= s.done
    && FinishedUpdate(s.plan, s.receipt, now) == Some((plan, receipt))
  }

  lemma CommitEnabled(r: Run, e: Event, plan: Plan, receipt: Receipt, files: CommitFiles)
    requires IsRun(r) && e.Commit? && CommitReady(r.state, e.pid, e.now, plan, receipt)
    requires (e.ok ==> e.applied && files.Tidy?) && LeftBehind(r.state.plan, plan, e.applied, files)
    ensures IsRun(Then(r, e, Activated(r.state, plan, receipt, e.applied, files)))
    ensures Stable(r.state, Activated(r.state, plan, receipt, e.applied, files), e.pid)
  {
    OwnStepStable(r, e, Activated(r.state, plan, receipt, e.applied, files));
  }

  lemma RepairEnabled(r: Run, e: Event, files: CommitFiles)
    requires IsRun(r) && e.Repair? && r.state.lock == Some(e.pid) && (e.direct || e.pid in r.state.passed)
    requires Recovered(r.state, files) && (e.ok ==> files.Tidy?)
    ensures IsRun(Then(r, e, r.state.(files := files))) && Stable(r.state, r.state.(files := files), e.pid)
    ensures Reread(r.state, r.state.(files := files))
  {
    OwnStepStable(r, e, r.state.(files := files));
  }

  function Opened(s: State, me: Pid): State {
    s.(passed := s.passed + {me})
  }

  lemma OpenEnabled(r: Run, me: Pid)
    requires IsRun(r) && r.state.files.Tidy?
    ensures IsRun(Then(r, Open(me), Opened(r.state, me))) && Stable(r.state, Opened(r.state, me), me)
  {
  }

  function Attested(s: State, me: Pid, plan: Plan): State {
    s.(attested := s.attested[me := plan])
  }

  lemma AttestEnabled(r: Run, me: Pid, plan: Plan)
    requires IsRun(r) && r.state.lock.None? && Shows(r.state, plan) && |r.state.receipt.completed| >= 3
    ensures var s := Attested(r.state, me, plan);
            IsRun(Then(r, Attest(me, plan), s))
  {
  }

  lemma OwnStepStable(r: Run, e: Event, s': State)
    requires IsRun(r) && Step(r.state, e, s') && (e.Act? || e.Save? || e.Commit? || e.RemoveVolumes? || e.Repair?)
    ensures Stable(r.state, s', e.pid)
  {
    NoUpdateWhilePurging(r);
    if PurgeStarted(r.state.receipt) { PurgeStep(r.state, e, s'); }
    if HostApplied(r.state) { HostAppliedStep(r.state, e, s'); }
  }

  /** At the immutable host-apply boundary, or beyond it. */
  predicate AtHostApply(r: Receipt) {
    (|r.completed| == 2 && r.status.Running?) || |r.completed| >= 3
  }

  /** The privileged helper accepts `plan` in this state. */
  predicate Verifies(s: State, plan: Plan) {
    Shows(s, plan) && |s.receipt.completed| >= 3
  }

  class Host {
    var state: State
    ghost var run: Run
    ghost var faults: nat     // effects of this process that did not report success
    ghost var saves: nat      // saves of this process that reported success
    ghost var unread: nat     // read-only reads under the lock that failed
    ghost var marks: set<Run> // moments remembered; whatever happens, the run continues them

    ghost predicate Valid()
      reads this
    {
      IsRun(run) && run.state == state && forall mark :: mark in marks ==> Continues(mark, run)
    }

    /** Remembers this moment. */
    ghost method Mark()
      requires Valid()
      modifies this`marks
      ensures Valid() && marks == old(marks) + {run}
    {
      marks := marks + {run};
    }

    /** The durable pair is the one this process holds in memory. */
    predicate Synced(me: Pid, plan: Plan, receipt: Receipt)
      reads this
    {
      state.lock == Some(me) && state.files.Tidy? && state.plan == plan && state.receipt == receipt
    }

    method Take(ghost e: Event, next: State)
      requires Valid() && IsRun(Then(run, e, next))
      modifies this`state, this`run
      ensures Valid() && state == next && run == Then(old(run), e, next)
    {
      state := next;
      run := Then(run, e, next);
    }

    /** One step of another process, or of the Sandboxes' users. */
    method OneOther(me: Pid)
      requires Valid()
      modifies this`state, this`run
      ensures Valid() && run.Then? && run.run == old(run)
      ensures Stable(old(state), state, me) && (FenceUp(run, me) <==> FenceUp(old(run), me))
      ensures old(state.lock) != Some(me) ==> state.lock != Some(me)
      ensures old(state.lock) == Some(me) ==> Held(old(state), state)
    {
      NoUpdateWhilePurging(run);
      assert Step(state, Sandboxes(state.active), state);
      var e, next :| Step(state, e, next) && ByOther(e, me);
      OtherStep(state, e, next, me);
      Take(e, next);
    }

    /** Any number of them. */
    method Interfere(me: Pid)
      requires Valid()
      modifies this`state, this`run
      ensures Valid() && Continues(old(run), run)
      ensures Stable(old(state), state, me) && (FenceUp(run, me) <==> FenceUp(old(run), me))
      ensures old(state.lock) != Some(me) ==> state.lock != Some(me)
      ensures old(state.lock) == Some(me) ==> Held(old(state), state)
    {
      var steps :| 0 <= steps;
      for i := 0 to steps
        invariant Valid() && Continues(old(run), run)
        invariant Stable(old(state), state, me) && (FenceUp(run, me) <==> FenceUp(old(run), me))
        invariant old(state.lock) != Some(me) ==> state.lock != Some(me)
        invariant old(state.lock) == Some(me) ==> Held(old(state), state)
      {
        OneOther(me);
      }
    }

    // ---- The operation lock and the durable pair ----

    method AcquireLock(me: Pid) returns (r: Reply)
      requires Valid() && state.lock != Some(me)
      modifies this`state, this`run, this`faults
      ensures Valid() && Stable(old(state), state, me)
      ensures state.lock == Some(me) <==> r == Alive(true)
      ensures r == Alive(true) ==> state.done == {} && EndsIn(run, Acquire(me))
      ensures faults == old(faults) + (if r == Alive(true) then 0 else 1)
    {
      Interfere(me);
      var free: bool := *;
      if free && state.lock.None? {
        Take(Acquire(me), state.(lock := Some(me), done := {}));
        return Alive(true);
      }
      faults := faults + 1;
      var died: bool := *;
      return if died then Died else Alive(false);
    }

    /** The start of a lock window, with the moment the lock was taken. */
    method StartWindow(me: Pid) returns (r: Reply, ghost locked: Run)
      requires Valid() && state.lock != Some(me)
      modifies this`state, this`run, this`faults, this`marks
      ensures Valid() && locked == run && marks == old(marks) + {locked} && Continues(old(run), locked)
      ensures (state.lock == Some(me) <==> r == Alive(true)) && KeepsOwn(old(state), state, me)
      ensures r == Alive(true) ==> EndsIn(locked, Acquire(me)) && state.done == {}
      ensures faults == old(faults) + (if r == Alive(true) then 0 else 1)
    {
      ghost var before, kept := run, marks;
      Mark();
      r := AcquireLock(me);
      locked := run;
      assert Continues(before, run);
      marks := kept + {run};
    }

    /** Closing the lock, or the kernel closing it for a process that died. */
    method CloseLock(me: Pid)
      requires Valid() && state.lock == Some(me)
      modifies this`state, this`run
      ensures Valid() && Stable(old(state), state, me) && state.lock != Some(me) && EndsIn(run, Unlock(me))
    {
      Interfere(me);
      Take(Unlock(me), state.(lock := None, done := {}));
    }

    /** The read-only opening: refused, without any fault, while a commit is pending. */
    method OpenOperation(me: Pid) returns (r: Reply, plan: Plan, receipt: Receipt)
      requires Valid() && state.lock != Some(me)
      modifies this`state, this`run, this`faults, this`saves
      ensures Valid() && Stable(old(state), state, me) && state.lock != Some(me)
      ensures r == Alive(true) ==> me in state.passed && plan == state.plan && receipt == state.receipt
      ensures r == Alive(true) ==> state.files.Tidy? && faults == old(faults) && EndsIn(run, Open(me))
      ensures faults == old(faults) ==> r == Alive(state.files.Tidy?)
      ensures faults >= old(faults) && saves == old(saves)
    {
      var fault, ok := OpenAmongOthers(me);
      plan, receipt := state.plan, state.receipt;
      if !fault { return Alive(ok), plan, receipt; }
      faults := faults + 1;
      r := Perhaps(me, false);
    }

    method OpenAmongOthers(me: Pid) returns (fault: bool, ok: bool)
      requires Valid() && state.lock != Some(me)
      modifies this`state, this`run
      ensures Valid() && Stable(old(state), state, me) && state.lock != Some(me)
      ensures ok ==> !fault && me in state.passed && EndsIn(run, Open(me))
      ensures !fault ==> (ok <==> state.files.Tidy?)
    {
      Interfere(me);
      fault := *;
      ok := !fault && state.files.Tidy?;
      if ok { OpenNow(me); }
    }

    method OpenNow(me: Pid)
      requires Valid() && state.files.Tidy?
      modifies this`state, this`run
      ensures Valid() && state == Opened(old(state), me) && Stable(old(state), state, me) && EndsIn(run, Open(me))
    {
      OpenEnabled(run, me);
      Take(Open(me), Opened(state, me));
    }

    /** The opening of a whole command, with the moment it came to its answer. */
    method StartCommand(me: Pid) returns (r: Reply, plan: Plan, receipt: Receipt, ghost opening: Run)
      requires Valid() && state.lock != Some(me)
      modifies this`state, this`run, this`faults, this`saves, this`marks
      ensures Valid() && state.lock != Some(me) && opening == run && marks == old(marks) + {opening}
      ensures Continues(old(run), opening) && (PurgeStarted(old(state.receipt)) ==> PurgeStarted(state.receipt))
      ensures r == Alive(true) ==> me in state.passed && plan == state.plan && receipt == state.receipt
      ensures r == Alive(true) ==> faults == old(faults) && EndsIn(opening, Open(me))
      ensures faults == old(faults) ==> r == Alive(state.files.Tidy?)
      ensures faults >= old(faults) && saves == old(saves)
    {
      ghost var before, kept := run, marks;
      Mark();
      r, plan, receipt := OpenOperation(me);
      opening := run;
      assert Continues(before, run);
      marks := kept + {run};
    }

    /** The read-only reader used by a process that holds the lock. */
    method ReadReadOnly(me: Pid) returns (r: Reply, plan: Plan, receipt: Receipt)
      requires Valid() && state.lock == Some(me)
      modifies this`state, this`run, this`faults, this`unread
      ensures Valid() && Stable(old(state), state, me) && (r.Died? ==> state.lock != Some(me))
      ensures r.Alive? ==> Held(old(state), state) && (FenceUp(run, me) <==> FenceUp(old(run), me))
      ensures unread == old(unread) + (if r == Alive(true) then 0 else 1)
      ensures r == Alive(true) ==> Synced(me, plan, receipt) && faults == old(faults)
      ensures faults == old(faults) ==> r == Alive(old(state.files).Tidy?)
      ensures faults >= old(faults) && saves == old(saves)
    {
      Interfere(me);
      plan, receipt := state.plan, state.receipt;
      var fault: bool := *;
      unread := unread + (if !fault && state.files.Tidy? then 0 else 1);
      if !fault { return Alive(state.files.Tidy?), plan, receipt; }
      faults := faults + 1;
      r := Perhaps(me, false);
    }

    /** RecoverOperation: finishes or discards a pending commit, then reads the
        pair. Without a fault it fails exactly when the commit is lost. `direct`:
        the command started with it instead of the read-only opening. */
    method RecoverOperation(me: Pid, direct: bool) returns (r: Reply, plan: Plan, receipt: Receipt)
      requires Valid() && state.lock == Some(me) && (direct || me in state.passed)
      modifies this`state, this`run, this`faults, this`saves
      ensures Valid() && Stable(old(state), state, me) && (r.Died? ==> state.lock != Some(me))
      ensures r.Alive? ==> Reread(old(state), state) && (FenceUp(run, me) <==> FenceUp(old(run), me))
      ensures r == Alive(true) ==> Synced(me, plan, receipt) && faults == old(faults)
      ensures faults == old(faults) ==> r == Alive(!old(state.files).Lost?)
      ensures faults >= old(faults) && saves == old(saves)
    {
      var fault: bool := *;
      Repair(me, direct, fault);
      plan, receipt := state.plan, state.receipt;
      if !fault { return Alive(state.files.Tidy?), plan, receipt; }
      faults := faults + 1;
      r := Perhaps(me, false);
    }

    method Repair(me: Pid, direct: bool, fault: bool)
      requires Valid() && state.lock == Some(me) && (direct || me in state.passed)
      modifies this`state, this`run
      ensures Valid() && Stable(old(state), state, me) && Reread(old(state), state)
      ensures FenceUp(run, me) <==> FenceUp(old(run), me)
      ensures !fault ==> (state.files.Tidy? <==> !old(state.files).Lost?)
    {
      Interfere(me);
      RepairNow(me, direct, fault);
    }

    method RepairNow(me: Pid, direct: bool, fault: bool)
      requires Valid() && state.lock == Some(me) && (direct || me in state.passed)
      modifies this`state, this`run
      ensures Valid() && Stable(old(state), state, me) && Reread(old(state), state)
      ensures FenceUp(run, me) <==> FenceUp(old(run), me)
      ensures !fault ==> (state.files.Tidy? <==> !old(state.files).Lost?)
    {
      var files := if state.files.Lost? then state.files else Tidy;
      if fault {
        assert Recovered(state, state.files);
        files :| Recovered(state, files);
      }
      var ok := !fault && files.Tidy?;
      RepairEnabled(run, Event.Repair(me, direct, ok), files);
      Take(Event.Repair(me, direct, ok), state.(files := files));
    }

    /** ReadHostApply ignores a pending commit and demands the accepted plan. */
    method ReadHostApply(me: Pid, accepted: Plan) returns (r: Reply, receipt: Receipt)
      requires Valid() && state.lock == Some(me)
      modifies this`state, this`run, this`faults, this`saves
      ensures Valid() && Stable(old(state), state, me) && (r.Died? ==> state.lock != Some(me))
      ensures r.Alive? ==> Held(old(state), state)
      ensures r == Alive(true) ==> Shows(state, accepted) && receipt == state.receipt && faults == old(faults)
      ensures faults == old(faults) ==> r == Alive(Shows(old(state), accepted) && AtHostApply(old(state.receipt)))
      ensures faults >= old(faults) && saves == old(saves)
    {
      Interfere(me);
      receipt := state.receipt;
      var fault: bool := *;
      if !fault { return Alive(Shows(state, accepted) && AtHostApply(receipt)), receipt; }
      faults := faults + 1;
      r := Perhaps(me, false);
    }

    /** The caller may die here, in which case the kernel frees its lock. */
    method Perhaps(me: Pid, ok: bool) returns (r: Reply)
      requires Valid()
      modifies this`state, this`run
      ensures Valid()
      ensures r.Alive? ==> r.ok == ok && state == old(state) && run == old(run)
      ensures r.Died? ==> state.lock != Some(me) && Stable(old(state), state, me)
    {
      var died: bool := *;
      if !died { return Alive(ok); }
      if state.lock == Some(me) { CloseLock(me); }
      return Died;
    }

    /** SaveReceipt of `next`, the receipt that `op` makes of the durable one. */
    method SaveReceipt(me: Pid, next: Receipt, op: ReceiptOp) returns (r: Reply)
      requires Valid() && state.lock == Some(me) && state.files.Tidy? && OpAllowed(state, me, op)
      requires ApplyOp(state.plan, state.receipt, op) == Some(next)
      requires op.VolumesPurged? ==> PurgeStarted(state.receipt)
      modifies this`state, this`run, this`faults, this`saves
      ensures Valid() && Stable(old(state), state, me)
      ensures r.Died? ==> state.lock != Some(me)
      ensures r.Alive? ==> state.lock == Some(me) && state.files.Tidy? && state.plan == old(state.plan)
      ensures r.Alive? ==> (FenceUp(run, me) <==> FenceUp(old(run), me))
      ensures r == Alive(true) ==> state.receipt == next && state.done == {}
      ensures r == Alive(false) ==> state.receipt == old(state.receipt) || state.receipt == next
      ensures r == Alive(false) ==> state.done == old(state.done) * {HostChanges}
      ensures faults == old(faults) + (if r == Alive(true) then 0 else 1)
      ensures saves == old(saves) + (if r == Alive(true) then 1 else 0)
    {
      var ok := SaveAmongOthers(me, next, op);
      r := Perhaps(me, ok);
      faults := faults + (if r == Alive(true) then 0 else 1);
      saves := saves + (if r == Alive(true) then 1 else 0);
    }

    method SaveAmongOthers(me: Pid, next: Receipt, op: ReceiptOp) returns (ok: bool)
      requires Valid() && state.lock == Some(me) && state.files.Tidy? && OpAllowed(state, me, op)
      requires ApplyOp(state.plan, state.receipt, op) == Some(next)
      requires op.VolumesPurged? ==> PurgeStarted(state.receipt)
      modifies this`state, this`run
      ensures Valid() && Stable(old(state), state, me)
      ensures state.lock == Some(me) && state.files.Tidy? && state.plan == old(state.plan)
      ensures FenceUp(run, me) <==> FenceUp(old(run), me)
      ensures ok ==> state.receipt == next && state.done == {}
      ensures !ok ==> state.receipt == old(state.receipt) || state.receipt == next
      ensures !ok ==> state.done == old(state.done) * {HostChanges}
    {
      ghost var before := state;
      Interfere(me);
      GuardsSurvive(before, state, me, op);
      ok := SaveNow(me, next, op);
    }

    method SaveNow(me: Pid, next: Receipt, op: ReceiptOp) returns (ok: bool)
      requires Valid() && state.lock == Some(me) && state.files.Tidy? && OpAllowed(state, me, op)
      requires ApplyOp(state.plan, state.receipt, op) == Some(next)
      modifies this`state, this`run
      ensures Valid() && Stable(old(state), state, me)
      ensures state == old(state).(receipt := state.receipt, done := state.done, upIssued := state.upIssued)
      ensures FenceUp(run, me) <==> FenceUp(old(run), me)
      ensures ok ==> state.receipt == next && state.done == {}
      ensures !ok ==> state.receipt == old(state.receipt) || state.receipt == next
      ensures !ok ==> state.done == old(state.done) * {HostChanges}
    {
      var applied: bool := *;
      ok := *;
      applied := applied || ok;
      SaveEnabled(run, Save(me, op, ok, applied), next);
      Take(Save(me, op, ok, applied), Saved(state, next, Save(me, op, ok, applied)));
    }

    // ---- Effects on the deployment ----

    /** Issues one effect or dependency under the lock. */
    method Do(me: Pid, deed: Deed) returns (r: Reply)
      requires Valid() && state.lock == Some(me) && DeedAllowed(state, me, deed)
      modifies this`state, this`run, this`faults, this`saves
      ensures Valid() && Stable(old(state), state, me)
      ensures r.Died? ==> state.lock != Some(me)
      ensures r.Alive? ==> state.lock == Some(me) && state.files == old(state.files)
      ensures r.Alive? ==> state.plan == old(state.plan) && state.receipt == old(state.receipt)
      ensures r.Alive? ==> state.done == old(state.done) - Overturned(deed) + (if r.ok then {deed} else {})
      ensures r.Alive? ==> (FenceUp(run, me) <==> FenceAfter(FenceUp(old(run), me), deed, r.ok))
      ensures faults == old(faults) + (if r == Alive(true) then 0 else 1) && saves == old(saves)
    {
      ghost var before := state;
      Interfere(me);
      DeedSurvives(before, state, me, deed);
      var ok := ActNow(me, deed);
      r := Perhaps(me, ok);
      faults := faults + (if r == Alive(true) then 0 else 1);
    }

    method ActNow(me: Pid, deed: Deed) returns (ok: bool)
      requires Valid() && state.lock == Some(me) && DeedAllowed(state, me, deed)
      modifies this`state, this`run
      ensures Valid() && Stable(old(state), state, me)
      ensures state.lock == Some(me) && state.files == old(state.files)
      ensures state.plan == old(state.plan) && state.receipt == old(state.receipt)
      ensures state.done == old(state.done) - Overturned(deed) + (if ok then {deed} else {})
      ensures FenceUp(run, me) <==> FenceAfter(FenceUp(old(run), me), deed, ok)
    {
      DeedPossible(state, me, deed);
      var e, next :| IsDeed(e, me, deed) && Step(state, e, next);
      DeedOutcome(run, e, next, me, deed);
      Take(e, next);
      return e.ok;
    }

    /** SaveOperation of the activated pair. Short of success the old or the new
        pair is durable, and a commit may be left pending or lost. */
    method SaveOperation(me: Pid, now: nat, plan: Plan, receipt: Receipt) returns (r: Reply)
      requires Valid() && CommitReady(state, me, now, plan, receipt)
      modifies this`state, this`run, this`faults, this`saves
      ensures Valid() && Stable(old(state), state, me)
      ensures r.Died? ==> state.lock != Some(me)
      ensures r == Alive(true) ==> Synced(me, plan, receipt)
      ensures r.Alive? ==> state.lock == Some(me) && (FenceUp(run, me) <==> FenceUp(old(run), me))
      ensures r == Alive(false) ==>
                || (state.plan == plan && state.receipt == receipt)
                || (state.plan == old(state.plan) && state.receipt == old(state.receipt))
      ensures faults == old(faults) + (if r == Alive(true) then 0 else 1)
      ensures saves == old(saves) + (if r == Alive(true) then 1 else 0)
    {
      Interfere(me);
      var ok := CommitNow(me, now, plan, receipt);
      r := Perhaps(me, ok);
      faults := faults + (if r == Alive(true) then 0 else 1);
      saves := saves + (if r == Alive(true) then 1 else 0);
    }

    method CommitNow(me: Pid, now: nat, plan: Plan, receipt: Receipt) returns (ok: bool)
      requires Valid() && CommitReady(state, me, now, plan, receipt)
      modifies this`state, this`run
      ensures Valid() && Stable(old(state), state, me) && state.lock == Some(me)
      ensures FenceUp(run, me) <==> FenceUp(old(run), me)
      ensures ok ==> Synced(me, plan, receipt)
      ensures || (state.plan == plan && state.receipt == receipt)
              || (state.plan == old(state.plan) && state.receipt == old(state.receipt))
    {
      ok := *;
      var applied: bool := *;
      applied := applied || ok;
      var files := Tidy;
      if !ok {
        assert LeftBehind(state.plan, plan, applied, Tidy);
        files :| LeftBehind(state.plan, plan, applied, files);
      }
      CommitEnabled(run, Commit(me, now, ok, applied), plan, receipt, files);
      Take(Commit(me, now, ok, applied), Activated(state, plan, receipt, applied, files));
    }

    /** A dependency that only inspects: release verification, capacity, host facts. */
    method Inspect(me: Pid) returns (r: Reply)
      requires Valid() && state.lock == Some(me)
      modifies this`state, this`run, this`faults, this`saves
      ensures Valid() && Stable(old(state), state, me)
      ensures r.Died? ==> state.lock != Some(me)
      ensures r.Alive? ==> Held(old(state), state) && (FenceUp(run, me) <==> FenceUp(old(run), me))
      ensures faults == old(faults) + (if r == Alive(true) then 0 else 1) && saves == old(saves)
    {
      Interfere(me);
      var ok: bool := *;
      r := Perhaps(me, ok);
      faults := faults + (if r == Alive(true) then 0 else 1);
    }

    /** The authenticated Compose identity of the source; an empty one is no identity. */
    method SourceSubject(me: Pid) returns (r: Reply, subject: string)
      requires Valid() && state.lock == Some(me)
      modifies this`state, this`run, this`faults, this`saves
      ensures Valid() && Stable(old(state), state, me)
      ensures r.Died? ==> state.lock != Some(me)
      ensures r.Alive? ==> Held(old(state), state) && (FenceUp(run, me) <==> FenceUp(old(run), me))
      ensures faults == old(faults) + (if r == Alive(true) && subject != "" then 0 else 1) && saves == old(saves)
    {
      Interfere(me);
      subject := *;
      var ok: bool := *;
      r := Perhaps(me, ok);
      faults := faults + (if r == Alive(true) && subject != "" then 0 else 1);
    }

    /** The privileged helper proves the host against `plan` under its own lock.
        Another plan on disk, or host apply not yet recorded, is no fault. */
    method HostVerify(me: Pid, plan: Plan) returns (r: Reply)
      requires Valid() && state.lock != Some(me)
      modifies this`state, this`run, this`faults, this`saves
      ensures Valid() && state.lock != Some(me) && Lasting(old(state), state, me)
      ensures r == Alive(true) ==> me in state.attested && state.attested[me] == plan && faults == old(faults)
      ensures r == Alive(true) ==> EndsIn(run, Attest(me, plan))
      ensures faults == old(faults) ==> r == Alive(Verifies(state, plan))
      ensures faults >= old(faults) && saves == old(saves)
    {
      var fault, ok := VerifyAmongOthers(me, plan);
      if !fault { return Alive(ok); }
      faults := faults + 1;
      r := Perhaps(me, false);
    }

    /** The verification of a whole command, with the moment of its answer. */
    method StartVerification(me: Pid, plan: Plan) returns (r: Reply, ghost helper: Run)
      requires Valid() && state.lock != Some(me)
      modifies this`state, this`run, this`faults, this`saves, this`marks
      ensures Valid() && state.lock != Some(me) && helper == run && marks == old(marks) + {helper}
      ensures Continues(old(run), helper) && (me in old(state.passed) ==> me in state.passed)
      ensures r == Alive(true) ==> me in state.attested && state.attested[me] == plan && faults == old(faults)
      ensures r == Alive(true) ==> EndsIn(helper, Attest(me, plan))
      ensures faults == old(faults) ==> r == Alive(Verifies(state, plan))
      ensures faults >= old(faults) && saves == old(saves)
    {
      ghost var before, kept := run, marks;
      Mark();
      r := HostVerify(me, plan);
      helper := run;
      assert Continues(before, run);
      marks := kept + {run};
    }

    method VerifyAmongOthers(me: Pid, plan: Plan) returns (fault: bool, ok: bool)
      requires Valid() && state.lock != Some(me)
      modifies this`state, this`run
      ensures Valid() && state.lock != Some(me) && Lasting(old(state), state, me)
      ensures ok ==> me in state.attested && state.attested[me] == plan && EndsIn(run, Attest(me, plan))
      ensures ok ==> !fault
      ensures !fault ==> (ok <==> Verifies(state, plan))
    {
      Interfere(me);
      fault := *;
      fault := fault || state.lock.Some?;
      ok := !fault && Verifies(state, plan);
      if ok { AttestNow(me, plan); }
    }

    method AttestNow(me: Pid, plan: Plan)
      requires Valid() && state.lock.None? && Verifies(state, plan)
      modifies this`state, this`run
      ensures Valid() && state == old(state).(attested := state.attested)
      ensures me in state.attested && state.attested[me] == plan && EndsIn(run, Attest(me, plan))
    {
      AttestEnabled(run, me, plan);
      Take(Attest(me, plan), Attested(state, me, plan));
    }

    /** Compose down with its volumes, issued outside the lock. */
    method RemoveVolumes(me: Pid) returns (r: Reply)
      requires Valid() && state.lock != Some(me) && PurgeStarted(state.receipt)
      modifies this`state, this`run, this`faults, this`saves
      ensures Valid() && Stable(old(state), state, me) && state.lock != Some(me)
      ensures r == Alive(true) ==> Gone(state)
      ensures faults == old(faults) + (if r == Alive(true) then 0 else 1) && saves == old(saves)
    {
      Interfere(me);
      var ok := RemoveNow(me);
      r := Perhaps(me, ok);
      faults := faults + (if r == Alive(true) then 0 else 1);
    }

    method RemoveNow(me: Pid) returns (ok: bool)
      requires Valid() && state.lock != Some(me) && PurgeStarted(state.receipt)
      modifies this`state, this`run
      ensures Valid() && Stable(old(state), state, me) && state.lock != Some(me)
      ensures ok ==> Gone(state)
    {
      ok := *;
      assert Partly(state, WithoutVolumes(state), WithoutVolumes(state));
      var next: State :| Partly(state, WithoutVolumes(state), next) && (ok ==> Gone(next));
      OwnStepStable(run, Protocol.RemoveVolumes(me, ok), next);
      Take(Protocol.RemoveVolumes(me, ok), next);
    }
  }
}
