/** The protocol's commit, recovery and enrollment events, tied to the code that
    performs them on files. */
module Refinement {
  import opened Outcome
  import opened InstallReceipt
  import opened Protocol
  import opened Deployment
  import opened OperationStore
  import RunnerIdentity

  // ---- Commit and recovery ----

  /** The plan a reader that ignores staged documents and marker sees; it refuses
      a receipt that does not match the plan. */
  function Shown(f: Files): Option<Plan> {
    if HistoryCoherent(f.current.plan, f.current.receipt) then Some(f.current.plan) else None
  }

  function Seen(f: Files): CommitFiles {
    if Clean(f) then Tidy else if Target(f).Some? then Unfinished(Shown(f)) else Lost(Shown(f))
  }

  /** The durable pair of the protocol is the one recovery settles on. */
  predicate Represents(f: Files, s: State) {
    s.files == Seen(f) && (Target(f).Some? ==> Target(f) == Some(Pair(s.plan, s.receipt)))
  }

  /** The read-only opening passes exactly on clean files, and recovery can succeed
      exactly when the files have a pair to settle on. */
  lemma OpeningsExactly(f: Files, s: State, pid: Pid)
    requires Represents(f, s) && s.lock == Some(pid)
    ensures Step(s, Open(pid), Opened(s, pid)) <==> Clean(f)
    ensures (exists s' :: Step(s, Repair(pid, true, true), s')) <==> Target(f).Some?
  {
    if Target(f).Some? { assert Step(s, Repair(pid, true, true), s.(files := Tidy)); }
  }

  /** However a `SaveOperation` ends, its files represent a commit of the protocol. */
  lemma CommitRefines(f: Files, s: State, pid: Pid, now: nat, to: Pair, f': Files, r: Reply)
    requires Represents(f, s) && Clean(f) && SaveRun(f, to, f', r)
    requires CommitReady(s, pid, now, to.plan, to.receipt) && to.plan != s.plan
    ensures var applied := Target(f') == Some(to);
            var s' := Activated(s, to.plan, to.receipt, applied, Seen(f'));
            Step(s, Commit(pid, now, r == Alive(true), applied), s') && Represents(f', s')
  {
    SaveOutcome(f, to, f', r);
  }

  /** An activation always changes the plan, so the two pairs differ. */
  lemma ActivationChangesPlan(s: State, pid: Pid, now: nat, to: Pair)
    requires CommitReady(s, pid, now, to.plan, to.receipt)
    ensures to.plan != s.plan
  {
    assert |to.plan.history| == |s.plan.history| + 1;
  }

  /** An updater that dies right after its marker is whole leaves every later
      opening refused, although recovery would activate the target. */
  lemma DeathStrandsUpdate(f: Files, r: Run, pid: Pid, now: nat, to: Pair)
    requires IsRun(r) && Represents(f, r.state) && Clean(f) && CommitReady(r.state, pid, now, to.plan, to.receipt)
    ensures var f' := Staged(f, to).(marker := Some(Whole(to)));
            var s' := Activated(r.state, to.plan, to.receipt, true, Seen(f'));
            && SaveRun(f, to, f', Died) && IsRun(Then(r, Commit(pid, now, false, true), s'))
            && s'.files.Unfinished? && Represents(f', s')
  {
    var f' := Staged(f, to).(marker := Some(Whole(to)));
    DeathLeavesPending(f, to);
    ActivationChangesPlan(r.state, pid, now, to);
    CommitRefines(f, r.state, pid, now, to, f', Died);
  }

  /** One that dies inside the marker leaves a commit that nothing can recover. */
  lemma DeathLosesCommit(f: Files, r: Run, pid: Pid, now: nat, to: Pair)
    requires IsRun(r) && Represents(f, r.state) && Clean(f) && CommitReady(r.state, pid, now, to.plan, to.receipt)
    ensures var f' := Staged(f, to).(marker := Some(Torn));
            var s' := Activated(r.state, to.plan, to.receipt, false, Seen(f'));
            && SaveRun(f, to, f', Died) && IsRun(Then(r, Commit(pid, now, false, false), s'))
            && s'.files.Lost? && Represents(f', s')
  {
    var f' := Staged(f, to).(marker := Some(Torn));
    TornMarkerBlocksRecovery(f, to);
    ActivationChangesPlan(r.state, pid, now, to);
    CommitRefines(f, r.state, pid, now, to, f', Died);
  }

  /** However a `RecoverOperation` ends, its files represent a recovery. */
  lemma RepairRefines(f: Files, s: State, pid: Pid, direct: bool, f': Files, r: Reply)
    requires Represents(f, s) && RecoverRun(f, f', r) && s.lock == Some(pid) && (direct || pid in s.passed)
    ensures var s' := s.(files := Seen(f'));
            Step(s, Repair(pid, direct, r == Alive(true)), s') && Represents(f', s')
  {
  }

  /** A receipt save renames one file over the current receipt. */
  lemma ReceiptSaveRefines(f: Files, s: State, next: Receipt)
    requires Represents(f, s) && Clean(f)
    ensures Represents(f.(current := f.current.(receipt := next)), s.(receipt := next))
  {
  }

  // ---- Enrollment ----

  /** The private keys of all identities ever published. */
  function PublishedKeys(published: seq<RunnerIdentity.Directory>): set<nat> {
    set i | 0 <= i < |published| && RunnerIdentity.KeyOf(published[i]).Some? :: RunnerIdentity.KeyOf(published[i]).value
  }

  lemma OneKey(d: RunnerIdentity.Declared, key: nat, now: int)
    ensures PublishedKeys([RunnerIdentity.Identity(d, key, now)]) == {key}
  {
    RunnerIdentity.IdentityHasKey(d, key, now);
    assert [RunnerIdentity.Identity(d, key, now)][0] == RunnerIdentity.Identity(d, key, now);
  }

  /** Every outcome of `RunnerInitOrValidate` is a part of the protocol's
      enrollment effect, and success is the whole of it. */
  method Enroll(p: RunnerIdentity.Parent, d: RunnerIdentity.Declared, now: int, key: nat, ghost s: State)
    returns (r: Reply, ghost world: State)
    requires p.Valid() && s.identities == PublishedKeys(p.published)
    modifies p
    ensures p.Valid() && world == s.(identities := PublishedKeys(p.published))
    ensures Partly(s, Applied(s, Deed.Enroll, key), world)
    ensures r == Alive(true) ==> world == Applied(s, Deed.Enroll, key)
  {
    ghost var before := p.published;
    if before != [] {
      assert before == [before[0]] && before[0] in p.published;
      ghost var d', key', now' :| before[0] == RunnerIdentity.Identity(d', key', now');
      OneKey(d', key', now');
    }
    r := p.RunnerInitOrValidate(d, now, key);
    world := s.(identities := PublishedKeys(p.published));
    OneKey(d, key, now);
  }
}
