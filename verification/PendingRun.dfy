/** A run from the accepted plan through an installation and a whole update up to
    its commit, and the states a death inside that commit leaves. */
module PendingRun {
  import opened Outcome
  import opened InstallReceipt
  import opened Protocol
  import opened ProtocolSafety
  import opened Deployment
  import opened OperationStore
  import opened RestingRun
  import opened Refinement

  /** An update that recorded `stages` stages, whose process did at least `done`
      since; what of the deployment then surely runs. */
  datatype Place = Place(stages: nat, done: set<Deed>, serving: bool, database: bool)

  predicate Aboard(s: State, pid: Pid, at: Place) {
    && s.lock == Some(pid) && s.files.Tidy? && Updating(s, pid, at.stages) && at.done <= s.done && !s.active
    && |s.receipt.completed| == STAGE_COUNT && s.receipt.status.Succeeded?
    && (at.serving ==> s.control.Serving?) && (at.database ==> s.database)
  }

  /** The deeds of an update that can succeed at a place. */
  predicate Permits(at: Place, deed: Deed) {
    match deed
    case StageRelease => at.stages == 2
    case StageFiles => at.stages == 2 || (at.stages == 4 && ActivateArtifacts in at.done)
    case ValidateSource => at.stages == 3
    case Quiesce(fenced) => at.database && (fenced ==> at.stages == 3 && StopControlPlane in at.done)
    case StopControlPlane => at.stages == 3 && ValidateSource in at.done && Quiesce(false) in at.done
    case SourceDown => at.stages == 4
    case ActivateArtifacts => at.stages == 4 && SourceDown in at.done
    case PublishManifest => at.stages == 4 && ActivateArtifacts in at.done && StageFiles in at.done
    case Prepare => at.stages == 5
    case Up => at.stages == 5 && Prepare in at.done
    case ProveReady => at.serving
    case Smoke => at.stages == 8 && at.serving
    case ValidateActivated => at.stages == 8 && Smoke in at.done
    case CleanUpStaging => at.stages == 8 && ValidateActivated in at.done
    case _ => false
  }

  function After(at: Place, deed: Deed): Place {
    at.(done := at.done + {deed},
        serving := if deed.StopControlPlane? || deed.SourceDown? then false else at.serving || deed.Up?,
        database := if deed.SourceDown? then false else at.database || deed.Prepare? || deed.Up?)
  }

  /** One successful deed of the update. */
  lemma Performed(r: Run, pid: Pid, at: Place, deed: Deed) returns (next: Run)
    requires IsRun(r) && Aboard(r.state, pid, at) && Permits(at, deed)
    ensures IsRun(next) && Aboard(next.state, pid, After(at, deed)) && next.state.plan == r.state.plan
  {
    PermittedIsAllowed(r.state, pid, at, deed);
    next := Did(r, pid, deed);
    StillAboard(r.state, pid, at, deed);
  }

  lemma PermittedIsAllowed(s: State, pid: Pid, at: Place, deed: Deed)
    requires Aboard(s, pid, at) && Permits(at, deed)
    ensures DeedAllowed(s, pid, deed) && (deed.Quiesce? ==> s.database) && (CallsApi(deed) ==> s.control.Serving?)
  {
  }

  lemma StillAboard(s: State, pid: Pid, at: Place, deed: Deed)
    requires Aboard(s, pid, at) && Permits(at, deed)
    ensures var next := Recorded(s, Applied(s, deed, 0), deed, true);
            Aboard(next, pid, After(at, deed)) && next.plan == s.plan
  {
    WholeEffect(s, deed);
  }

  predicate PermitsAll(at: Place, deeds: seq<Deed>)
    decreases deeds
  {
    deeds == [] || (Permits(at, deeds[0]) && PermitsAll(After(at, deeds[0]), deeds[1..]))
  }

  function AfterAll(at: Place, deeds: seq<Deed>): Place
    decreases deeds
  {
    if deeds == [] then at else AfterAll(After(at, deeds[0]), deeds[1..])
  }

  lemma {:induction false} PerformedAll(r: Run, pid: Pid, at: Place, deeds: seq<Deed>) returns (next: Run)
    requires IsRun(r) && Aboard(r.state, pid, at) && PermitsAll(at, deeds)
    ensures IsRun(next) && Aboard(next.state, pid, AfterAll(at, deeds)) && next.state.plan == r.state.plan
    decreases deeds
  {
    next := r;
    if deeds != [] {
      next := Performed(r, pid, at, deeds[0]);
      next := PerformedAll(next, pid, After(at, deeds[0]), deeds[1..]);
    }
  }

  // ---- The stages ----

  function StageAt(n: nat): UpdateStage {
    match n
    case 0 => UpdatePreflight
    case 1 => UpdateReleaseVerified
    case 2 => AssetsStaged
    case 3 => ActivationStarted
    case 4 => DeploymentPublished
    case 5 => UpdateComposeStarted
    case 6 => ResourcesApplied
    case 7 => UpdateReadiness
    case _ => UpdateSmoke
  }

  /** What the code does before it records the stage after the first `n`. */
  function DeedsAt(n: nat): seq<Deed> {
    match n
    case 2 => [StageRelease, StageFiles]
    case 3 => [ValidateSource, Quiesce(false), StopControlPlane, Quiesce(true)]
    case 4 => [SourceDown, ActivateArtifacts, StageFiles, PublishManifest]
    case 5 => [Prepare, Up]
    case 7 => [ProveReady]
    case 8 => [Smoke, ValidateActivated, CleanUpStaging]
    case _ => []
  }

  /** Where the update is after `n` stages. */
  function PlaceAt(n: nat): Place {
    Place(n, {}, n <= 3 || n > 5, n != 5)
  }

  /** The deeds are permitted in this order and lead to the next place. */
  predicate Fits(n: nat) {
    var end := AfterAll(PlaceAt(n), DeedsAt(n));
    && PermitsAll(PlaceAt(n), DeedsAt(n))
    && (if n < 8 then UpdateDeeds(StageAt(n)) <= end.done && end.(stages := n + 1, done := {}) == PlaceAt(n + 1)
        else {Smoke, ValidateActivated, CleanUpStaging} <= end.done)
  }

  lemma Scheduled(n: nat)
    requires 1 <= n <= 8
    ensures Fits(n)
  {
    match n
    case 2 => StagingFits();
    case 3 => FenceFits();
    case 4 => PublicationFits();
    case 5 => StartupFits();
    case 8 => ProofFits();
    case _ =>
  }

  lemma StagingFits()
    ensures Fits(2)
  {
    Two(PlaceAt(2), DeedsAt(2));
  }

  lemma FenceFits()
    ensures Fits(3)
  {
    Four(PlaceAt(3), DeedsAt(3));
  }

  lemma PublicationFits()
    ensures Fits(4)
  {
    Four(PlaceAt(4), DeedsAt(4));
  }

  lemma StartupFits()
    ensures Fits(5)
  {
    Two(PlaceAt(5), DeedsAt(5));
  }

  lemma ProofFits()
    ensures Fits(8)
  {
    Three(PlaceAt(8), DeedsAt(8));
  }

  lemma One(at: Place, deeds: seq<Deed>)
    requires |deeds| == 1
    ensures PermitsAll(at, deeds) <==> Permits(at, deeds[0])
    ensures AfterAll(at, deeds) == After(at, deeds[0])
  {
    assert deeds[1..] == [];
  }

  lemma Two(at: Place, deeds: seq<Deed>)
    requires |deeds| == 2
    ensures PermitsAll(at, deeds) <==> Permits(at, deeds[0]) && Permits(After(at, deeds[0]), deeds[1])
    ensures AfterAll(at, deeds) == After(After(at, deeds[0]), deeds[1])
  {
    One(After(at, deeds[0]), deeds[1..]);
  }

  lemma Three(at: Place, deeds: seq<Deed>)
    requires |deeds| == 3
    ensures var next := After(at, deeds[0]);
            && (PermitsAll(at, deeds) <==>
                Permits(at, deeds[0]) && Permits(next, deeds[1]) && Permits(After(next, deeds[1]), deeds[2]))
            && AfterAll(at, deeds) == After(After(next, deeds[1]), deeds[2])
  {
    Two(After(at, deeds[0]), deeds[1..]);
  }

  lemma Four(at: Place, deeds: seq<Deed>)
    requires |deeds| == 4
    ensures var next := After(at, deeds[0]); var third := After(next, deeds[1]);
            && (PermitsAll(at, deeds) <==>
                && Permits(at, deeds[0]) && Permits(next, deeds[1])
                && Permits(third, deeds[2]) && Permits(After(third, deeds[2]), deeds[3]))
            && AfterAll(at, deeds) == After(After(third, deeds[2]), deeds[3])
  {
    Three(After(at, deeds[0]), deeds[1..]);
  }

  /** The deeds of a stage, and its successful save. */
  lemma Journaled(r: Run, pid: Pid, n: nat) returns (next: Run)
    requires IsRun(r) && Aboard(r.state, pid, PlaceAt(n)) && 1 <= n < 8
    ensures IsRun(next) && Aboard(next.state, pid, PlaceAt(n + 1)) && next.state.plan == r.state.plan
  {
    Scheduled(n);
    next := PerformedAll(r, pid, PlaceAt(n), DeedsAt(n));
    SameStages(PlaceAt(n), DeedsAt(n));
    next := StageSaved(next, pid, n, AfterAll(PlaceAt(n), DeedsAt(n)));
  }

  lemma StageSaved(r: Run, pid: Pid, n: nat, at: Place) returns (next: Run)
    requires IsRun(r) && Aboard(r.state, pid, at) && 1 <= n < 8 && at.stages == n && UpdateDeeds(StageAt(n)) <= at.done
    ensures IsRun(next) && Aboard(next.state, pid, at.(stages := n + 1, done := {})) && next.state.plan == r.state.plan
  {
    next := UpdateSaved(r, pid, CompleteUpdate(StageAt(n), "evidence"));
  }

  lemma {:induction false} JournaledTo(r: Run, pid: Pid, n: nat) returns (next: Run)
    requires IsRun(r) && Aboard(r.state, pid, PlaceAt(1)) && 1 <= n <= 8
    ensures IsRun(next) && Aboard(next.state, pid, PlaceAt(n)) && next.state.plan == r.state.plan
    decreases n
  {
    next := r;
    if n > 1 {
      next := JournaledTo(r, pid, n - 1);
      next := Journaled(next, pid, n - 1);
    }
  }

  /** The last stage's deeds. */
  lemma TargetProved(r: Run, pid: Pid) returns (next: Run)
    requires IsRun(r) && Aboard(r.state, pid, PlaceAt(8))
    ensures IsRun(next) && next.state.plan == r.state.plan
    ensures Updated(next.state, pid)
  {
    Scheduled(8);
    SameStages(PlaceAt(8), DeedsAt(8));
    next := PerformedAll(r, pid, PlaceAt(8), DeedsAt(8));
  }

  predicate Updated(s: State, pid: Pid) {
    && s.lock == Some(pid) && s.files.Tidy? && Updating(s, pid, 8)
    && {Smoke, ValidateActivated, CleanUpStaging} <= s.done
  }

  lemma {:induction false} SameStages(at: Place, deeds: seq<Deed>)
    ensures AfterAll(at, deeds).stages == at.stages
    decreases deeds
  {
    if deeds != [] { SameStages(After(at, deeds[0]), deeds[1..]); }
  }

  lemma UpdateSaved(r: Run, pid: Pid, op: ReceiptOp) returns (next: Run)
    requires IsRun(r) && r.state.lock == Some(pid) && r.state.files.Tidy? && OpAllowed(r.state, pid, op)
    requires ChangesUpdates(op) && ApplyOp(r.state.plan, r.state.receipt, op).Some?
    ensures var receipt := ApplyOp(r.state.plan, r.state.receipt, op).value;
            && IsRun(next) && next.state == r.state.(receipt := receipt, done := {}, upIssued := next.state.upIssued)
            && receipt == r.state.receipt.(updates := receipt.updates) && HasActiveUpdate(receipt)
            && UpdateProgress(receipt) == (if op.FailUpdateAt? then UpdateProgress(r.state.receipt)
                                           else UpdateProgress(r.state.receipt) + 1)
  {
    UpdateOpAdvances(r.state.plan, r.state.receipt, op);
    var s := r.state.(receipt := ApplyOp(r.state.plan, r.state.receipt, op).value, done := {},
                      upIssued := r.state.upIssued && !JournalsBoundary(op));
    next := Then(r, Save(pid, op, true, true), s);
  }

  /** Installed, unlocked, verified by the privileged helper and locked again. */
  lemma Verified(plan: Plan, pid: Pid) returns (r: Run)
    requires |plan.history| == 1 && plan.history[0].release == plan.release
    ensures IsRun(r) && AtTheTop(r.state, pid, Succeeded) && r.state.plan == plan
    ensures pid in r.state.attested && r.state.attested[pid] == plan
  {
    r := InstalledRun(plan, pid);
    r := Then(r, Unlock(pid), r.state.(lock := None, done := {}));
    r := Then(r, Attest(pid, plan), r.state.(attested := r.state.attested[pid := plan]));
    r := Then(r, Acquire(pid), r.state.(lock := Some(pid), done := {}));
  }

  lemma Begun(r: Run, pid: Pid, id: nat, target: Release) returns (next: Run)
    requires IsRun(r) && AtTheTop(r.state, pid, Succeeded)
    requires pid in r.state.attested && r.state.attested[pid] == r.state.plan
    requires target.version > r.state.plan.release.version && target.manifest != r.state.plan.release.manifest
    ensures IsRun(next) && Aboard(next.state, pid, PlaceAt(1)) && next.state.plan == r.state.plan
  {
    next := Confirmed(r, pid);
    next := UpdateSaved(next, pid, Begin(id, target));
  }

  lemma Confirmed(r: Run, pid: Pid) returns (next: Run)
    requires IsRun(r) && AtTheTop(r.state, pid, Succeeded)
    ensures IsRun(next) && next.state == r.state.(done := {Quiesce(false), Confirm})
  {
    next := Did(r, pid, Quiesce(false));
    next := Did(next, pid, Confirm);
  }

  /** Every accepted plan can be installed and updated to any newer release. */
  lemma CommitReachable(plan: Plan, pid: Pid, id: nat, target: Release, now: nat) returns (r: Run, to: Pair)
    requires |plan.history| == 1 && plan.history[0].release == plan.release && plan.history[0].at < now
    requires target.version > plan.release.version && target.manifest != plan.release.manifest
    ensures IsRun(r) && r.state.plan == plan && CommitReady(r.state, pid, now, to.plan, to.receipt)
  {
    r := Verified(plan, pid);
    r := Begun(r, pid, id, target);
    r := JournaledTo(r, pid, 8);
    r := TargetProved(r, pid);
    to := Finished(r.state, pid, now);
  }

  lemma Finished(s: State, pid: Pid, now: nat) returns (to: Pair)
    requires Updated(s, pid) && ClockAdvanced(s.plan, now)
    ensures CommitReady(s, pid, now, to.plan, to.receipt)
  {
    CompletionAdvances(s.receipt, UpdateSmoke, "");
    var next := FinishedUpdate(s.plan, s.receipt, now).value;
    to := Pair(next.0, next.1);
  }

  /** From every accepted plan: one death inside the commit leaves it pending, and
      one that tears the marker leaves it lost. */
  lemma PendingReachable(plan: Plan, pid: Pid, id: nat, target: Release, now: nat) returns (pending: Run, lost: Run)
    requires |plan.history| == 1 && plan.history[0].release == plan.release && plan.history[0].at < now
    requires target.version > plan.release.version && target.manifest != plan.release.manifest
    ensures IsRun(pending) && pending.state.files.Unfinished? && pending.state.plan != plan
    ensures IsRun(lost) && lost.state.files.Lost? && lost.state.plan == plan
  {
    var r, to := CommitReachable(plan, pid, id, target, now);
    var f := Files(Pair(r.state.plan, r.state.receipt), None, None, None);
    DeathStrandsUpdate(f, r, pid, now, to);
    DeathLosesCommit(f, r, pid, now, to);
    ActivationChangesPlan(r.state, pid, now, to);
    var whole, torn := Staged(f, to).(marker := Some(Whole(to))), Staged(f, to).(marker := Some(Torn));
    pending := Then(r, Commit(pid, now, false, true), Activated(r.state, to.plan, to.receipt, true, Seen(whole)));
    lost := Then(r, Commit(pid, now, false, false), Activated(r.state, to.plan, to.receipt, false, Seen(torn)));
  }
}
