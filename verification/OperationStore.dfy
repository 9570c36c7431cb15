/** The files behind one operation (internal/install/accepted_linux.go): the plan
    and receipt advance together through staged documents and a commit marker.
    Every system call may fail, possibly after taking effect, and the process may
    die inside any of them. Digests are injective, so a marker names documents. */
module OperationStore {
  import opened Outcome
  import opened InstallReceipt

  datatype Content<T> = Torn | Whole(value: T)

  datatype Pair = Pair(plan: Plan, receipt: Receipt)

  datatype Files = Files(
    current: Pair, stagedPlan: Option<Content<Plan>>, stagedReceipt: Option<Content<Receipt>>,
    marker: Option<Content<Pair>>)

  /** No staged document and no marker: what the read-only readers demand. */
  predicate Clean(f: Files) {
    f.stagedPlan.None? && f.stagedReceipt.None? && f.marker.None?
  }

  /** Each document of `to` is already current or still staged intact. */
  predicate Available(f: Files, to: Pair) {
    && (f.current.plan == to.plan || f.stagedPlan == Some(Whole(to.plan)))
    && (f.current.receipt == to.receipt || f.stagedReceipt == Some(Whole(to.receipt)))
  }

  /** The pair that recovery settles on, if recovery can succeed. */
  function Target(f: Files): Option<Pair> {
    match f.marker
    case None => Some(f.current)
    case Some(Torn) => None
    case Some(Whole(to)) => if Available(f, to) then Some(to) else None
  }

  // ---- What each call may leave ----

  /** A created document; short of success it may exist in any form. */
  predicate PlanWritten(f: Files, plan: Plan, f': Files, r: Reply) {
    && f' == f.(stagedPlan := f'.stagedPlan)
    && (r == Alive(true) ==> f'.stagedPlan == Some(Whole(plan)))
  }

  predicate ReceiptWritten(f: Files, receipt: Receipt, f': Files, r: Reply) {
    && f' == f.(stagedReceipt := f'.stagedReceipt)
    && (r == Alive(true) ==> f'.stagedReceipt == Some(Whole(receipt)))
  }

  /** A marker that was not written whole is torn or absent, or whole although the
      call reported an error and could not remove it. */
  predicate MarkerWritten(f: Files, to: Pair, f': Files, r: Reply) {
    && f' == f.(marker := f'.marker)
    && (f'.marker == None || f'.marker == Some(Torn) || f'.marker == Some(Whole(to)))
    && (r == Alive(true) ==> f'.marker == Some(Whole(to)))
  }

  /** The deferred clean-up of a save that did not reach its commit intent. */
  predicate Discarded(f: Files, f': Files, r: Reply) {
    && f' == f.(stagedPlan := f'.stagedPlan, stagedReceipt := f'.stagedReceipt) && r != Alive(true)
    && (f'.stagedPlan == None || f'.stagedPlan == f.stagedPlan)
    && (f'.stagedReceipt == None || f'.stagedReceipt == f.stagedReceipt)
  }

  /** Finishing never changes what recovery settles on, and publishes the plan
      before the receipt. */
  predicate FinishRun(f: Files, to: Pair, f': Files, r: Reply) {
    && Target(f') == Target(f)
    && (f'.current == f.current || f'.current == f.current.(plan := to.plan) || f'.current == to)
    && (r == Alive(true) ==> Clean(f') && f'.current == to)
  }

  predicate AfterMarker(f: Files, written: Reply, to: Pair, f': Files, r: Reply) {
    if written.Died? then f' == f && r == Died
    else if !written.ok then Discarded(f, f', r)
    else FinishRun(f, to, f', r)
  }

  ghost predicate AfterReceipt(f: Files, written: Reply, to: Pair, f': Files, r: Reply) {
    if written.Died? then f' == f && r == Died
    else if !written.ok then Discarded(f, f', r)
    else exists g, marked :: MarkerWritten(f, to, g, marked) && AfterMarker(g, marked, to, f', r)
  }

  ghost predicate AfterPlan(f: Files, written: Reply, to: Pair, f': Files, r: Reply) {
    if written.Died? then f' == f && r == Died
    else if !written.ok then Discarded(f, f', r)
    else exists g, staged :: ReceiptWritten(f, to.receipt, g, staged) && AfterReceipt(g, staged, to, f', r)
  }

  /** Every way one `SaveOperation` can end. */
  ghost predicate SaveRun(f: Files, to: Pair, f': Files, r: Reply) {
    if !Clean(f) then f' == f && r == Alive(false)
    else exists g, staged :: PlanWritten(f, to.plan, g, staged) && AfterPlan(g, staged, to, f', r)
  }

  /** Every way one `RecoverOperation` can end. */
  predicate RecoverRun(f: Files, f': Files, r: Reply) {
    && Target(f') == Target(f) && (Clean(f) ==> Clean(f'))
    && (r == Alive(true) ==> Clean(f') && Target(f).Some?)
    && (f'.current == f.current
        || (f.marker.Some? && f.marker.value.Whole?
            && f'.current.plan == f.marker.value.value.plan))
  }

  class Store {
    var files: Files
    ghost var faults: nat

    method WriteStagedPlan(plan: Plan) returns (r: Reply)
      modifies this
      ensures PlanWritten(old(files), plan, files, r)
      ensures faults == old(faults) + (if r == Alive(true) then 0 else 1)
    {
      var left: Option<Content<Plan>>;
      r := *;
      if r == Alive(true) { left := Some(Whole(plan)); } else { faults := faults + 1; left := *; }
      files := files.(stagedPlan := left);
    }

    method WriteStagedReceipt(receipt: Receipt) returns (r: Reply)
      modifies this
      ensures ReceiptWritten(old(files), receipt, files, r)
      ensures faults == old(faults) + (if r == Alive(true) then 0 else 1)
    {
      var left: Option<Content<Receipt>>;
      r := *;
      if r == Alive(true) { left := Some(Whole(receipt)); } else { faults := faults + 1; left := *; }
      files := files.(stagedReceipt := left);
    }

    method WriteMarker(to: Pair) returns (r: Reply)
      modifies this
      ensures MarkerWritten(old(files), to, files, r)
      ensures faults == old(faults) + (if r == Alive(true) then 0 else 1)
    {
      var left: Option<Content<Pair>> := Some(Whole(to));
      r := *;
      if r != Alive(true) {
        faults := faults + 1;
        left :| left == None || left == Some(Torn) || left == Some(Whole(to));
      }
      files := files.(marker := left);
    }

    /** A rename or unlink either happened or did not. */
    method Change(next: Files) returns (r: Reply)
      modifies this
      ensures files == next || (r != Alive(true) && files == old(files))
      ensures faults == old(faults) + (if r == Alive(true) then 0 else 1)
    {
      r := *;
      var applied: bool := *;
      if r == Alive(true) || applied { files := next; }
      faults := faults + (if r == Alive(true) then 0 else 1);
    }

    method Discard() returns (r: Reply)
      modifies this
      ensures Discarded(old(files), files, r)
      ensures faults >= old(faults) + (if r.Died? then 1 else 0)
    {
      var _ :- Change(files.(stagedReceipt := None));
      var _ :- Change(files.(stagedPlan := None));
      return Alive(false);
    }

    /** Publishes each document of the intent unless it is already current, then
        drops the marker. Repeating it after any failure settles on the same pair. */
    method FinishCommit(to: Pair) returns (r: Reply)
      requires files.marker == Some(Whole(to))
      modifies this
      ensures FinishRun(old(files), to, files, r) && (r == Alive(true) ==> old(Target(files)) == Some(to))
      ensures faults >= old(faults) && (r == Alive(true) ==> faults == old(faults))
      ensures faults == old(faults) ==> r == Alive(old(Target(files)).Some?)
    {
      var ok :- PublishPlan(to);
      if !ok { return Alive(false); }
      ok :- PublishReceipt(to);
      if !ok { return Alive(false); }
      r := Change(files.(marker := None));
    }

    method PublishPlan(to: Pair) returns (r: Reply)
      requires files.marker == Some(Whole(to))
      modifies this
      ensures Target(files) == old(Target(files)) && files.marker == old(files.marker)
      ensures files.current == old(files.current) || files.current == old(files.current).(plan := to.plan)
      ensures r == Alive(true) ==> files.current.plan == to.plan && files.stagedPlan.None? && faults == old(faults)
      ensures faults >= old(faults) && (r.Died? ==> faults > old(faults))
      ensures faults == old(faults) && old(Target(files)).Some? ==> r == Alive(true)
    {
      if files.current.plan == to.plan { r := Change(files.(stagedPlan := None)); return; }
      if files.stagedPlan != Some(Whole(to.plan)) { return Alive(false); }
      r := Change(files.(stagedPlan := None, current := files.current.(plan := to.plan)));
    }

    method PublishReceipt(to: Pair) returns (r: Reply)
      requires files.marker == Some(Whole(to)) && files.current.plan == to.plan
      modifies this
      ensures Target(files) == old(Target(files)) && files.marker == old(files.marker)
      ensures files.stagedPlan == old(files.stagedPlan)
      ensures files.current == old(files.current) || files.current == to
      ensures r == Alive(true) ==> files.current == to && files.stagedReceipt.None? && faults == old(faults)
      ensures faults >= old(faults) && (r.Died? ==> faults > old(faults))
      ensures faults == old(faults) && old(Target(files)).Some? ==> r == Alive(true)
    {
      if files.current.receipt == to.receipt { r := Change(files.(stagedReceipt := None)); return; }
      if files.stagedReceipt != Some(Whole(to.receipt)) { return Alive(false); }
      r := Change(files.(stagedReceipt := None, current := files.current.(receipt := to.receipt)));
    }

    /** Whatever happens inside, recovery afterwards can only reach the old or the
        new pair. With a single death it is lost exactly by a torn marker. */
    method SaveOperation(to: Pair) returns (r: Reply)
      modifies this
      ensures SaveRun(old(files), to, files, r)
      ensures r == Alive(true) ==> Clean(files) && files.current == to
      ensures Clean(old(files)) ==> (r == Alive(true) <==> faults == old(faults))
      ensures !Clean(old(files)) ==> r == Alive(false) && files == old(files)
      ensures Clean(old(files)) ==> Target(files) in {None, Some(old(files.current)), Some(to)}
      ensures Clean(old(files)) && Target(files).None? ==> files.marker.Some? && files.current == old(files.current)
      ensures Clean(old(files)) && r.Died? && faults == old(faults) + 1 ==>
                (Target(files).None? <==> files.marker == Some(Torn))
    {
      if !Clean(files) { return Alive(false); }
      var staged := WriteStagedPlan(to.plan);
      ghost var left := files;
      r := ContinuePlan(to, staged);
      assert PlanWritten(old(files), to.plan, left, staged);
      SaveOutcome(old(files), to, files, r);
    }

    method ContinuePlan(to: Pair, staged: Reply) returns (r: Reply)
      requires staged == Alive(true) ==> files.stagedPlan == Some(Whole(to.plan))
      requires files.stagedReceipt.None? && files.marker.None?
      modifies this
      ensures AfterPlan(old(files), staged, to, files, r) && faults >= old(faults)
      ensures r == Alive(true) ==> staged == Alive(true) && Clean(files) && files.current == to && faults == old(faults)
      ensures staged == Alive(true) ==> (r == Alive(true) <==> faults == old(faults))
      ensures r.Died? && faults == old(faults) + (if staged == Alive(true) then 1 else 0) ==>
                (Target(files).None? <==> files.marker == Some(Torn))
    {
      if staged.Died? { return Died; }
      if !staged.ok { r := Discard(); return; }
      var second := WriteStagedReceipt(to.receipt);
      ghost var left := files;
      r := ContinueReceipt(to, second);
      assert ReceiptWritten(old(files), to.receipt, left, second);
    }

    method ContinueReceipt(to: Pair, staged: Reply) returns (r: Reply)
      requires staged == Alive(true) ==> Available(files, to)
      requires files.marker.None?
      modifies this
      ensures AfterReceipt(old(files), staged, to, files, r) && faults >= old(faults)
      ensures r == Alive(true) ==> staged == Alive(true) && Clean(files) && files.current == to && faults == old(faults)
      ensures staged == Alive(true) ==> (r == Alive(true) <==> faults == old(faults))
      ensures r.Died? && faults == old(faults) + (if staged == Alive(true) then 1 else 0) ==>
                (Target(files).None? <==> files.marker == Some(Torn))
    {
      if staged.Died? { return Died; }
      if !staged.ok { r := Discard(); return; }
      var marked := WriteMarker(to);
      ghost var left := files;
      if marked.Died? {
        r := Died;
      } else if !marked.ok {
        r := Discard();
      } else {
        r := FinishCommit(to);
      }
      assert MarkerWritten(old(files), to, left, marked) && AfterMarker(left, marked, to, files, r);
    }

    /** Completes or discards a pending commit before the pair is read. It never
        changes which pair that is, and succeeds exactly when there is one. */
    method RecoverOperation() returns (r: Reply, pair: Pair)
      modifies this
      ensures RecoverRun(old(files), files, r)
      ensures r == Alive(true) ==> pair == files.current && old(Target(files)) == Some(pair)
      ensures faults >= old(faults) && (faults == old(faults) ==> r == Alive(old(Target(files)).Some?))
    {
      pair := files.current;
      match files.marker
      case None =>
        var ok :- Change(files.(stagedPlan := None));
        if !ok { return Alive(false), pair; }
        r := Change(files.(stagedReceipt := None));
      case Some(Torn) =>
        r := Alive(false);
      case Some(Whole(to)) =>
        r := FinishCommit(to);
        pair := files.current;
    }

    /** Readers without recovery refuse a pending commit, so never see a mixed pair. */
    method ReadOperation() returns (ok: bool, pair: Pair)
      ensures ok ==> Target(files) == Some(pair) && files.current == pair
      ensures !ok <==> !Clean(files)
    {
      return Clean(files), files.current;
    }
  }

  // ---- What follows for whole runs ----

  lemma DiscardOutcome(f: Files, to: Pair, f': Files, r: Reply)
    requires Discarded(f, f', r) && (f.marker.None? || f.marker == Some(Torn) || f.marker == Some(Whole(to)))
    ensures f'.current == f.current && f'.marker == f.marker
    ensures Target(f') == None || Target(f') == Some(f.current) || Target(f') == Some(to)
  {
  }

  lemma MarkerOutcome(f: Files, written: Reply, to: Pair, f': Files, r: Reply)
    requires AfterReceipt(f, written, to, f', r) && f.marker.None? && (written == Alive(true) ==> Available(f, to))
    ensures Target(f') == None || Target(f') == Some(f.current) || Target(f') == Some(to)
    ensures Target(f').None? ==> f'.current == f.current && f'.marker.Some?
    ensures f'.current == f.current || f'.current == f.current.(plan := to.plan) || f'.current == to
    ensures r == Alive(true) ==> Clean(f') && f'.current == to
  {
    if written == Alive(true) {
      var g, marked :| MarkerWritten(f, to, g, marked) && AfterMarker(g, marked, to, f', r);
      if marked == Alive(false) { DiscardOutcome(g, to, f', r); }
    } else if written == Alive(false) {
      DiscardOutcome(f, to, f', r);
    }
  }

  /** Recovery after any end of a save reaches only the old or the new pair, and a
      lost one leaves the old documents in place. */
  lemma SaveOutcome(f: Files, to: Pair, f': Files, r: Reply)
    requires Clean(f) && SaveRun(f, to, f', r)
    ensures Target(f') == None || Target(f') == Some(f.current) || Target(f') == Some(to)
    ensures Target(f').None? ==> f'.current == f.current && f'.marker.Some?
    ensures f'.current == f.current || f'.current == f.current.(plan := to.plan) || f'.current == to
    ensures r == Alive(true) ==> Clean(f') && f'.current == to
  {
    var g, staged :| PlanWritten(f, to.plan, g, staged) && AfterPlan(g, staged, to, f', r);
    if staged == Alive(true) {
      var k, second :| ReceiptWritten(g, to.receipt, k, second) && AfterReceipt(k, second, to, f', r);
      MarkerOutcome(k, second, to, f', r);
    } else if staged == Alive(false) {
      DiscardOutcome(g, to, f', r);
    }
  }

  function Staged(f: Files, to: Pair): Files {
    f.(stagedPlan := Some(Whole(to.plan)), stagedReceipt := Some(Whole(to.receipt)))
  }

  /** A death while the marker is written can leave it in any of its forms. */
  lemma DeathAtMarker(f: Files, to: Pair, marker: Option<Content<Pair>>)
    requires Clean(f) && (marker == None || marker == Some(Torn) || marker == Some(Whole(to)))
    ensures SaveRun(f, to, Staged(f, to).(marker := marker), Died)
  {
    var g := f.(stagedPlan := Some(Whole(to.plan)));
    var k := g.(stagedReceipt := Some(Whole(to.receipt)));
    var end := k.(marker := marker);
    assert end == Staged(f, to).(marker := marker);
    assert MarkerWritten(k, to, end, Died) && AfterMarker(end, Died, to, end, Died);
    assert AfterReceipt(k, Alive(true), to, end, Died);
    assert ReceiptWritten(g, to.receipt, k, Alive(true));
    assert AfterPlan(g, Alive(true), to, end, Died);
    assert PlanWritten(f, to.plan, g, Alive(true));
  }

  /** One death in a save from a clean store can leave a commit that is pending
      although recovery would settle it, on the new pair or on the old one. */
  lemma DeathLeavesPending(f: Files, to: Pair)
    requires Clean(f)
    ensures var whole := Staged(f, to).(marker := Some(Whole(to)));
            SaveRun(f, to, whole, Died) && !Clean(whole) && Target(whole) == Some(to)
    ensures var none := Staged(f, to);
            SaveRun(f, to, none, Died) && !Clean(none) && Target(none) == Some(f.current)
  {
    DeathAtMarker(f, to, Some(Whole(to)));
    DeathAtMarker(f, to, None);
    assert Staged(f, to).(marker := None) == Staged(f, to);
  }

  /** Or a torn marker, which blocks every later recovery although both documents
      of the old pair are intact. */
  lemma TornMarkerBlocksRecovery(f: Files, to: Pair)
    requires Clean(f)
    ensures var torn := Staged(f, to).(marker := Some(Torn));
            SaveRun(f, to, torn, Died) && torn.current == f.current && Target(torn).None?
    ensures var torn := Staged(f, to).(marker := Some(Torn));
            forall later, r :: RecoverRun(torn, later, r) ==> r != Alive(true) && Target(later).None?
  {
    DeathAtMarker(f, to, Some(Torn));
  }
}
