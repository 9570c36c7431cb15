/** `secondbox-deploy uninstall --purge` (cmd/secondbox-deploy/installer_resume.go)
    and the purge helpers (internal/install/purge_linux.go): a chain of short lock
    windows with the volume removal between two of them. */
module PurgeCommand {
  import opened Outcome
  import opened InstallReceipt
  import opened Protocol
  import opened ProtocolTheorems
  import opened Deployment
  import opened InstallerCommands

  /** A lock window ended with its lock released. */
  ghost predicate Window(h: Host, me: Pid, before: State)
    reads h
  {
    h.Valid() && h.state.lock != Some(me) && Stable(before, h.state, me)
  }

  predicate IsPurged(s: State) {
    s.receipt.status.Purged?
  }

  /** A purge between two of its lock windows. */
  ghost predicate Between(h: Host, me: Pid)
    reads h
  {
    h.Valid() && h.state.lock != Some(me) && me in h.state.passed && PurgeStarted(h.state.receipt)
  }

  /** A commit is pending only on a succeeded installation, so never here. */
  lemma NothingPending(r: Run)
    requires IsRun(r) && !r.state.receipt.status.Succeeded?
    ensures r.state.files.Tidy?
  {
    RunInv(r);
  }

  // ---- The purge intent ----

  /** Confirmation is re-checked under the lock before the intent is journaled. */
  method BeginPurging(h: Host, me: Pid, operation: nat) returns (r: Reply, ghost locked: Run)
    requires h.Valid() && h.state.lock != Some(me) && me in h.state.passed
    modifies h`state, h`run, h`faults, h`saves, h`marks
    ensures Window(h, me, old(h.state)) && h.faults >= old(h.faults)
    ensures Continues(old(h.run), locked) && Continues(locked, h.run) && old(h.marks) + {locked} <= h.marks
    ensures r == Alive(true) ==> PurgeStarted(h.state.receipt) && h.faults == old(h.faults)
    ensures h.faults == old(h.faults) ==>
              EndsIn(locked, Acquire(me)) && (r == Alive(true) <==> MayPurge(locked.state, operation))
    ensures h.faults == old(h.faults) ==> Stable(old(h.state), locked.state, me) && Stable(locked.state, h.state, me)
  {
    h.Mark();
    locked := h.run;
    var ok :- h.AcquireLock(me);
    if !ok { return Alive(false), locked; }
    h.Mark();
    locked := h.run;
    r := BeginPurgingLocked(h, me, operation);
    if r.Alive? { h.CloseLock(me); }
  }

  predicate MayPurge(s: State, operation: nat) {
    s.plan.operation == operation && (s.receipt.status.Uninstalled? || s.receipt.status.Purging?)
  }

  method BeginPurgingLocked(h: Host, me: Pid, operation: nat) returns (r: Reply)
    requires h.Valid() && h.state.lock == Some(me) && me in h.state.passed
    modifies h`state, h`run, h`faults, h`saves
    ensures Returned(h, me, r) && Stable(old(h.state), h.state, me)
    ensures r == Alive(true) ==> h.state.receipt.status.Purging? && h.state.plan.operation == operation
    ensures h.faults >= old(h.faults) && (r == Alive(true) ==> h.faults == old(h.faults))
    ensures h.faults == old(h.faults) ==> (r == Alive(true) <==> MayPurge(old(h.state), operation))
  {
    var ok, plan, receipt :- ReadForPurge(h, me, operation);
    if !ok { return Alive(false); }
    r := JournalIntent(h, me, plan, receipt);
  }

  method ReadForPurge(h: Host, me: Pid, operation: nat) returns (r: Reply, plan: Plan, receipt: Receipt)
    requires h.Valid() && h.state.lock == Some(me) && me in h.state.passed
    modifies h`state, h`run, h`faults, h`saves
    ensures Returned(h, me, r) && Stable(old(h.state), h.state, me)
    ensures r == Alive(true) ==> h.Synced(me, plan, receipt) && MayPurge(h.state, operation)
    ensures h.faults >= old(h.faults) && (r == Alive(true) ==> h.faults == old(h.faults))
    ensures h.faults == old(h.faults) ==> r == Alive(MayPurge(old(h.state), operation))
  {
    if !h.state.receipt.status.Succeeded? { NothingPending(h.run); }
    r, plan, receipt := h.RecoverOperation(me, false);
    if r == Alive(true) && !MayPurge(h.state, operation) { r := Alive(false); }
  }

  method JournalIntent(h: Host, me: Pid, plan: Plan, receipt: Receipt) returns (r: Reply)
    requires h.Valid() && h.Synced(me, plan, receipt) && (receipt.status.Uninstalled? || receipt.status.Purging?)
    modifies h`state, h`run, h`faults, h`saves
    ensures Returned(h, me, r) && Stable(old(h.state), h.state, me)
    ensures r == Alive(true) ==> h.state.receipt.status.Purging? && h.state.plan == plan
    ensures h.faults >= old(h.faults) && (r == Alive(true) <==> h.faults == old(h.faults))
  {
    if !receipt.volumesPurged {
      var ok :- h.Do(me, TeardownAuthority);
      if !ok { return Alive(false); }
    }
    if receipt.status.Purging? { return Alive(true); }
    UninstalledKeepsVolumes(h.run);
    r := h.SaveReceipt(me, MarkPurging(receipt).value, BeginPurge);
  }

  lemma UninstalledKeepsVolumes(r: Run)
    requires IsRun(r) && r.state.receipt.status.Uninstalled?
    ensures !r.state.receipt.volumesPurged
  {
    RunInv(r);
  }

  // ---- The windows ----

  /** Opens a window: takes the lock and reads the pair, or has no lock. */
  method TakePurge(h: Host, me: Pid) returns (r: Reply, plan: Plan, receipt: Receipt)
    requires Between(h, me)
    modifies h`state, h`run, h`faults, h`saves
    ensures h.Valid() && Stable(old(h.state), h.state, me)
    ensures r == Alive(true) ==> h.Synced(me, plan, receipt) && PurgeStarted(receipt)
    ensures r != Alive(true) ==> h.state.lock != Some(me)
    ensures h.faults >= old(h.faults) && (r == Alive(true) <==> h.faults == old(h.faults))
  {
    plan, receipt := h.state.plan, h.state.receipt;
    var ok :- h.AcquireLock(me);
    if !ok { return Alive(false), plan, receipt; }
    NothingPending(h.run);
    r, plan, receipt := h.RecoverOperation(me, false);
    if r == Alive(false) { h.CloseLock(me); }
  }

  /** Validation under the lock, in the command and again in the privileged helper. */
  method ValidatePurge(h: Host, me: Pid) returns (r: Reply, plan: Plan, receipt: Receipt)
    requires Between(h, me)
    modifies h`state, h`run, h`faults, h`saves
    ensures Window(h, me, old(h.state))
    ensures h.faults >= old(h.faults) && (r == Alive(true) ==> h.faults == old(h.faults))
    ensures r == Alive(true) ==>
              plan == h.state.plan && PurgeStarted(receipt) && PurgeAdvanced(receipt, h.state.receipt)
    ensures h.faults == old(h.faults) ==> r == Alive(true) || IsPurged(h.state)
  {
    r, plan, receipt := TakePurge(h, me);
    if r != Alive(true) { return; }
    if receipt.status.Purging? {
      r := h.Inspect(me);
    } else {
      r := Alive(false);
    }
    if r.Alive? { h.CloseLock(me); }
  }

  method ValidateHostPurge(h: Host, me: Pid, plan: Plan) returns (r: Reply)
    requires Between(h, me) && h.state.plan == plan
    modifies h`state, h`run, h`faults, h`saves
    ensures Window(h, me, old(h.state))
    ensures h.faults >= old(h.faults) && (r == Alive(true) ==> h.faults == old(h.faults))
    ensures h.faults == old(h.faults) ==> r == Alive(true) || IsPurged(h.state)
  {
    var valid, durable, _ :- ValidatePurge(h, me);
    return Alive(valid && durable == plan);
  }

  /** Skipped only when an earlier pass already journaled it. */
  method PurgeVolumes(h: Host, me: Pid, receipt: Receipt) returns (r: Reply)
    requires Between(h, me) && PurgeStarted(receipt) && PurgeAdvanced(receipt, h.state.receipt)
    modifies h`state, h`run, h`faults, h`saves
    ensures Window(h, me, old(h.state))
    ensures r == Alive(true) ==> h.state.receipt.volumesPurged && h.faults == old(h.faults)
    ensures h.faults >= old(h.faults) && (h.faults == old(h.faults) ==> r == Alive(true) || IsPurged(h.state))
  {
    if receipt.volumesPurged { return Alive(true); }
    var ok :- h.RemoveVolumes(me);
    if !ok { return Alive(false); }
    r := JournalVolumes(h, me);
  }

  /** Journals the volume removal that ran between the windows. */
  method JournalVolumes(h: Host, me: Pid) returns (r: Reply)
    requires Between(h, me) && Gone(h.state)
    modifies h`state, h`run, h`faults, h`saves
    ensures Window(h, me, old(h.state))
    ensures r == Alive(true) ==> h.state.receipt.volumesPurged && h.faults == old(h.faults)
    ensures h.faults >= old(h.faults) && (h.faults == old(h.faults) ==> r == Alive(true) || IsPurged(h.state))
  {
    var plan, receipt;
    r, plan, receipt := TakePurge(h, me);
    if r != Alive(true) { return; }
    if receipt.status.Purging? {
      r := h.SaveReceipt(me, CompletePurgeStep(receipt).value, VolumesPurged);
    } else {
      r := Alive(false);
    }
    if r.Alive? { h.CloseLock(me); }
  }

  /** Removes `resources` and records it in one save. */
  method RemoveRecorded(h: Host, me: Pid, resources: set<Resource>) returns (r: Reply)
    requires h.Valid() && h.state.lock == Some(me) && h.state.files.Tidy? && h.state.receipt.status.Purging?
    requires resources <= h.state.receipt.created
    requires ReleaseManifest in resources ==> Artifacts in h.state.receipt.removed
    modifies h`state, h`run, h`faults, h`saves
    ensures Returned(h, me, r) && Stable(old(h.state), h.state, me)
    ensures r == Alive(true) ==> h.state.receipt.status.Purging? && h.state.files.Tidy?
    ensures r == Alive(true) ==> h.state.receipt.removed == old(h.state.receipt).removed + resources
    ensures r == Alive(false) ==>
              || h.state.receipt.removed == old(h.state.receipt).removed
              || h.state.receipt.removed == old(h.state.receipt).removed + resources
    ensures h.faults >= old(h.faults) && (r == Alive(true) <==> h.faults == old(h.faults))
  {
    var ok :- h.Inspect(me);
    if !ok { return Alive(false); }
    r := h.SaveReceipt(me, MarkResourcesRemoved(h.state.receipt, resources).value, RemoveResources(resources));
  }

  /** The artifacts go first, while the release manifest still vouches for them. */
  method PurgeArtifacts(h: Host, me: Pid) returns (r: Reply)
    requires Between(h, me)
    modifies h`state, h`run, h`faults, h`saves
    ensures Window(h, me, old(h.state))
    ensures r == Alive(true) ==> Artifacts in h.state.receipt.removed && h.faults == old(h.faults)
    ensures h.faults >= old(h.faults) && (h.faults == old(h.faults) ==> r == Alive(true) || IsPurged(h.state))
  {
    var plan, receipt;
    r, plan, receipt := TakePurge(h, me);
    if r != Alive(true) { return; }
    PurgeableFacts(h.run);
    if !receipt.status.Purging? {
      r := Alive(false);
    } else if Artifacts !in receipt.removed {
      r := RemoveRecorded(h, me, {Artifacts});
    }
    if r.Alive? { h.CloseLock(me); }
  }

  /** The artifacts can always be removed under the manifest's authority. */
  lemma PurgeableFacts(r: Run)
    requires IsRun(r) && PurgeStarted(r.state.receipt)
    ensures Artifacts in r.state.receipt.created && ComposeProject in r.state.receipt.removed
    ensures Artifacts !in r.state.receipt.removed ==> ReleaseManifest !in r.state.receipt.removed
  {
    RunInv(r);
  }

  /** The privileged helper, under its own lock and against the accepted plan. */
  method PurgeHost(h: Host, me: Pid, plan: Plan, privileged: set<Resource>) returns (r: Reply)
    requires Between(h, me) && h.state.plan == plan && Artifacts in h.state.receipt.removed
    modifies h`state, h`run, h`faults, h`saves
    ensures Window(h, me, old(h.state))
    ensures r == Alive(true) ==>
              privileged * h.state.receipt.created <= h.state.receipt.removed && h.faults == old(h.faults)
    ensures h.faults >= old(h.faults) && (h.faults == old(h.faults) ==> r == Alive(true) || IsPurged(h.state))
  {
    var durable, receipt;
    r, durable, receipt := TakePurge(h, me);
    if r != Alive(true) { return; }
    if durable == plan && receipt.status.Purging? {
      r := RemoveRecorded(h, me, privileged * receipt.created);
    } else {
      r := Alive(false);
    }
    if r.Alive? { h.CloseLock(me); }
  }

  // ---- The user's own resources ----

  /** Where a resource lies, counted in path separators. */
  type Depths = Resource -> nat

  /** The order of removal: the release manifest last, otherwise deepest first. */
  predicate Sooner(depth: Depths, a: Resource, b: Resource) {
    !a.ReleaseManifest? && (b.ReleaseManifest? || depth(a) > depth(b))
  }

  predicate IsNext(depth: Depths, resource: Resource, todo: set<Resource>) {
    resource in todo && forall other :: other in todo ==> !Sooner(depth, other, resource)
  }

  lemma {:induction false} NextOf(depth: Depths, todo: set<Resource>) returns (next: Resource)
    requires todo != {}
    ensures IsNext(depth, next, todo)
    decreases todo
  {
    var some :| some in todo;
    var rest := todo - {some};
    next := some;
    if rest != {} {
      var best := NextOf(depth, rest);
      if Sooner(depth, best, some) { next := best; }
    }
    forall other | other in todo ensures !Sooner(depth, other, next) {
      assert other == some || other in rest;
    }
  }

  /** Nothing is recorded as removed before what has to go sooner. */
  ghost predicate InOrder(depth: Depths, listed: set<Resource>, removed: set<Resource>) {
    forall a, b :: a in listed && b in listed && b in removed && Sooner(depth, a, b) ==> a in removed
  }

  function Remaining(r: Receipt): set<Resource> {
    r.created - r.removed - {OperationDirectory, ComposeProject}
  }

  predicate ReadyToFinish(r: Receipt, privileged: set<Resource>) {
    Artifacts in r.removed && r.volumesPurged && privileged * r.created <= r.removed
  }

  /** Removes what is left one resource at a time, saving after each, and then
      records the purge as complete. */
  method PurgeUserLocked(h: Host, me: Pid, receipt: Receipt, privileged: set<Resource>, depth: Depths)
    returns (r: Reply)
    requires h.Valid() && h.state.lock == Some(me) && h.state.files.Tidy?
    requires h.state.receipt == receipt && receipt.status.Purging?
    modifies h`state, h`run, h`faults, h`saves
    ensures Returned(h, me, r) && Stable(old(h.state), h.state, me)
    ensures r == Alive(true) ==> IsPurged(h.state)
    ensures r.Alive? ==> InOrder(depth, Remaining(receipt), h.state.receipt.removed)
    ensures h.faults >= old(h.faults) && (r == Alive(true) ==> h.faults == old(h.faults))
    ensures h.faults == old(h.faults) && ReadyToFinish(receipt, privileged) ==> r == Alive(true)
  {
    if Artifacts !in receipt.removed { return Alive(false); }
    PurgeableFacts(h.run);
    r := RemoveRest(h, me, receipt, privileged, depth);
    if r != Alive(true) { return; }
    if MarkPurged(h.state.receipt).None? { return Alive(false); }
    r := h.SaveReceipt(me, MarkPurged(h.state.receipt).value, FinishPurge);
  }

  /** The loop stopped after removing `listed - todo`, and nothing else. */
  ghost predicate Progressed(s: State, me: Pid, receipt: Receipt, todo: set<Resource>) {
    && s.lock == Some(me) && s.files.Tidy? && s.receipt.status.Purging?
    && todo <= Remaining(receipt) && s.receipt.created == receipt.created
    && s.receipt.removed == receipt.removed + (Remaining(receipt) - todo)
  }

  method RemoveRest(h: Host, me: Pid, receipt: Receipt, privileged: set<Resource>, depth: Depths) returns (r: Reply)
    requires h.Valid() && h.state.lock == Some(me) && h.state.files.Tidy?
    requires h.state.receipt == receipt && receipt.status.Purging? && Artifacts in receipt.removed
    modifies h`state, h`run, h`faults, h`saves
    ensures Returned(h, me, r) && Stable(old(h.state), h.state, me)
    ensures r == Alive(true) ==> Progressed(h.state, me, receipt, {}) && h.faults == old(h.faults)
    ensures r.Alive? ==> InOrder(depth, Remaining(receipt), h.state.receipt.removed)
    ensures h.faults >= old(h.faults)
    ensures h.faults == old(h.faults) && privileged * receipt.created <= receipt.removed ==> r == Alive(true)
  {
    var todo := Remaining(receipt);
    while todo != {}
      invariant h.Valid() && Stable(old(h.state), h.state, me) && h.faults == old(h.faults)
      invariant Progressed(h.state, me, receipt, todo)
      invariant OrderedSoFar(depth, Remaining(receipt), todo)
      decreases todo
    {
      ghost var next := NextOf(depth, todo);
      var resource :| resource in todo && forall other :: other in todo ==> !Sooner(depth, other, resource);
      if resource in privileged { OrderHolds(depth, receipt, todo); return Alive(false); }
      OrderKept(depth, receipt, todo, resource);
      var ok :- RemoveOne(h, me, receipt, todo, resource);
      if !ok { OrderHolds(depth, receipt, todo); OrderHolds(depth, receipt, todo - {resource}); return Alive(false); }
      todo := todo - {resource};
    }
    OrderHolds(depth, receipt, todo);
    return Alive(true);
  }

  method RemoveOne(h: Host, me: Pid, receipt: Receipt, todo: set<Resource>, resource: Resource) returns (r: Reply)
    requires h.Valid() && Progressed(h.state, me, receipt, todo) && resource in todo && Artifacts in receipt.removed
    modifies h`state, h`run, h`faults, h`saves
    ensures Returned(h, me, r) && Stable(old(h.state), h.state, me)
    ensures r == Alive(true) ==> Progressed(h.state, me, receipt, todo - {resource})
    ensures r == Alive(false) ==>
              || h.state.receipt.removed == receipt.removed + (Remaining(receipt) - todo)
              || h.state.receipt.removed == receipt.removed + (Remaining(receipt) - (todo - {resource}))
    ensures h.faults >= old(h.faults) && (r == Alive(true) <==> h.faults == old(h.faults))
  {
    assert Remaining(receipt) - todo + {resource} == Remaining(receipt) - (todo - {resource});
    r := RemoveRecorded(h, me, {resource});
  }

  /** What is still outstanding never has to go sooner than what is gone. */
  ghost predicate OrderedSoFar(depth: Depths, listed: set<Resource>, todo: set<Resource>) {
    forall a, b :: a in todo && b in listed && b !in todo ==> !Sooner(depth, a, b)
  }

  lemma OrderKept(depth: Depths, receipt: Receipt, todo: set<Resource>, resource: Resource)
    requires OrderedSoFar(depth, Remaining(receipt), todo) && IsNext(depth, resource, todo)
    ensures OrderedSoFar(depth, Remaining(receipt), todo - {resource})
  {
  }

  lemma OrderHolds(depth: Depths, receipt: Receipt, todo: set<Resource>)
    requires OrderedSoFar(depth, Remaining(receipt), todo) && todo <= Remaining(receipt)
    ensures InOrder(depth, Remaining(receipt), receipt.removed + (Remaining(receipt) - todo))
  {
  }

  method PurgeUser(h: Host, me: Pid, privileged: set<Resource>, depth: Depths) returns (r: Reply)
    requires Between(h, me) && ReadyToFinish(h.state.receipt, privileged)
    modifies h`state, h`run, h`faults, h`saves
    ensures Window(h, me, old(h.state)) && h.faults >= old(h.faults)
    ensures r == Alive(true) || h.faults == old(h.faults) ==> IsPurged(h.state)
  {
    var plan, receipt;
    r, plan, receipt := TakePurge(h, me);
    if r != Alive(true) { return; }
    if receipt.status.Purging? {
      r := PurgeUserLocked(h, me, receipt, privileged, depth);
    } else {
      r := Alive(false);
    }
    if r.Alive? { h.CloseLock(me); }
  }

  // ---- The whole command ----

  /** Everything after the purge intent is durable. Whatever other processes do,
      a pass without a fault leaves the operation purged. */
  method ContinuePurge(h: Host, me: Pid, privileged: set<Resource>, depth: Depths) returns (r: Reply)
    requires Between(h, me)
    modifies h`state, h`run, h`faults, h`saves
    ensures h.Valid() && h.state.lock != Some(me) && PurgeAdvanced(old(h.state.receipt), h.state.receipt)
    ensures r == Alive(true) || h.faults == old(h.faults) ==> IsPurged(h.state)
    ensures h.faults >= old(h.faults)
  {
    var valid, plan, receipt :- ValidatePurge(h, me);
    if !valid { return Alive(false); }
    valid :- ValidateHostPurge(h, me, plan);
    if !valid { return Alive(false); }
    var ok :- PurgeVolumes(h, me, receipt);
    if !ok { return Alive(false); }
    ok :- PurgeArtifacts(h, me);
    if !ok { return Alive(false); }
    ok :- PurgeHost(h, me, plan, privileged);
    if !ok { return Alive(false); }
    r := PurgeUser(h, me, privileged, depth);
  }

  lemma PurgedFacts(r: Run)
    requires IsRun(r)
    ensures IsPurged(r.state) ==> Gone(r.state)
  {
    RunInv(r);
  }

  predicate PurgeOpens(s: State, confirmed: bool) {
    s.files.Tidy? && confirmed && MayPurge(s, s.plan.operation)
  }

  /** Without a fault both moments were reached, by their own events, as far as the
      opening allows. */
  predicate PurgeReached(opening: Run, locked: Run, me: Pid, confirmed: bool) {
    && (opening.state.files.Tidy? ==> EndsIn(opening, Open(me)))
    && (PurgeOpens(opening.state, confirmed) ==> EndsIn(locked, Acquire(me)))
  }

  predicate PurgeGoesThrough(opening: State, locked: State, confirmed: bool) {
    || (opening.files.Tidy? && opening.receipt.status.Purged?)
    || (PurgeOpens(opening, confirmed) && MayPurge(locked, opening.plan.operation))
  }

  /** `runInstallPurge`: `confirmed` is the typed confirmation of the operation,
      `opening` and `locked` the moments at which it opened and took its first lock.
      A command that met no fault leaves the operation purged exactly when it was
      purged already, or confirmed and still there to purge under the lock. */
  method Purge(h: Host, me: Pid, privileged: set<Resource>, depth: Depths, confirmed: bool)
    returns (r: Reply, ghost opening: Run, ghost locked: Run)
    requires h.Valid() && h.state.lock != Some(me)
    modifies h`state, h`run, h`faults, h`saves, h`marks
    ensures h.Valid() && h.state.lock != Some(me) && h.faults >= old(h.faults)
    ensures Continues(old(h.run), opening) && Continues(opening, locked) && Continues(locked, h.run)
    ensures r == Alive(true) ==> IsPurged(h.state) && Gone(h.state)
    ensures PurgeStarted(old(h.state.receipt)) && confirmed && h.faults == old(h.faults) ==> IsPurged(h.state)
    ensures h.faults == old(h.faults) ==> PurgeReached(opening, locked, me, confirmed)
    ensures h.faults == old(h.faults) && PurgeGoesThrough(opening.state, locked.state, confirmed) ==> IsPurged(h.state)
    ensures h.faults == old(h.faults) && !PurgeGoesThrough(opening.state, locked.state, confirmed) ==> r != Alive(true)
  {
    var clean, plan, receipt;
    clean, plan, receipt, opening := h.StartCommand(me);
    locked := opening;
    if PurgeStarted(h.state.receipt) { NothingPending(h.run); }
    if clean != Alive(true) { return clean, opening, locked; }
    PurgedFacts(h.run);
    if receipt.status.Purged? { return Alive(true), opening, locked; }
    if (!receipt.status.Uninstalled? && !receipt.status.Purging?) || !confirmed {
      return Alive(false), opening, locked;
    }
    r, locked := BeginPurging(h, me, plan.operation);
    if r != Alive(true) { return; }
    r := ContinuePurge(h, me, privileged, depth);
    PurgedFacts(h.run);
  }
}
