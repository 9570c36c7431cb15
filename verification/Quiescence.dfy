/** The quiescence query (cmd/secondbox-deploy/update_command.go) over the tables
    of migrations/postgres/0001_secondbox.sql, in SQL's three-valued logic. */
module Quiescence {
  datatype Truth = True | False | Unknown

  datatype Value = Null | Text(text: string)

  datatype Sandbox = Sandbox(
    id: Value, state: Value, desired: Value, workspace: Value, instance: Value, deletedAt: Value, reconcileAt: Value)

  datatype Workspace = Workspace(id: Value, mutation: Value)

  datatype Instance = Instance(id: Value, sandbox: Value, state: Value)

  datatype Database = Database(sandboxes: seq<Sandbox>, workspaces: seq<Workspace>, instances: seq<Instance>)

  // ---- SQL operators ----

  function Not(a: Truth): Truth {
    match a case True => False case False => True case Unknown => Unknown
  }

  function And(a: Truth, b: Truth): Truth {
    if a == False || b == False then False else if a == True && b == True then True else Unknown
  }

  function Of(b: bool): Truth {
    if b then True else False
  }

  function Equal(a: Value, b: Value): Truth {
    if a.Null? || b.Null? then Unknown else Of(a == b)
  }

  function IsNull(a: Value): Truth {
    Of(a.Null?)
  }

  /** `state NOT IN ('stopped','lost','failed')`. */
  function Active(state: Value): Truth {
    And(And(Not(Equal(state, Text("stopped"))), Not(Equal(state, Text("lost")))), Not(Equal(state, Text("failed"))))
  }

  // ---- The query ----

  /** `deleted_at IS NULL AND state<>'deleted'`. */
  function Live(s: Sandbox): Truth {
    And(IsNull(s.deletedAt), Not(Equal(s.state, Text("deleted"))))
  }

  /** The rows a sandbox has after the left join: its workspaces, or one of nulls. */
  predicate Joins(db: Database, s: Sandbox, w: Workspace) {
    if exists i :: 0 <= i < |db.workspaces| && Equal(db.workspaces[i].id, s.workspace) == True
    then w in db.workspaces && Equal(w.id, s.workspace) == True
    else w == Workspace(Null, Null)
  }

  /** `EXISTS` is never unknown: it asks for a row whose condition is true. */
  predicate HasActiveInstance(db: Database, s: Sandbox) {
    exists i :: 0 <= i < |db.instances|
              && And(Equal(db.instances[i].sandbox, s.id), Active(db.instances[i].state)) == True
  }

  function Settled(db: Database, s: Sandbox, w: Workspace): Truth {
    And(And(And(And(And(And(
      Not(IsNull(w.id)), Equal(s.state, Text("stopped"))), Equal(s.desired, Text("stopped"))),
      Equal(s.instance, Text(""))), Equal(w.mutation, Text(""))), IsNull(s.reconcileAt)),
      Not(Of(HasActiveInstance(db, s))))
  }

  ghost predicate SandboxBlocks(db: Database, s: Sandbox) {
    s in db.sandboxes && exists w :: Joins(db, s, w) && And(Live(s), Not(Settled(db, s, w))) == True
  }

  /** The second branch: an active instance whose join found no live sandbox. */
  predicate OrphanBlocks(db: Database, i: Instance) {
    && i in db.instances && Active(i.state) == True
    && !exists s :: s in db.sandboxes && And(Equal(s.id, i.sandbox), Live(s)) == True
  }

  ghost predicate NoBlocker(db: Database) {
    (forall s :: !SandboxBlocks(db, s)) && (forall i :: !OrphanBlocks(db, i))
  }

  // ---- What it means ----

  /** The schema: the columns the query compares are not null, and workspace
      identifiers are a primary key. */
  predicate WellFormed(db: Database) {
    && (forall s :: s in db.sandboxes ==>
          s.id.Text? && s.state.Text? && s.desired.Text? && s.workspace.Text? && s.instance.Text?)
    && (forall w :: w in db.workspaces ==> w.id.Text? && w.mutation.Text?)
    && (forall i :: i in db.instances ==> i.id.Text? && i.sandbox.Text? && i.state.Text?)
    && (forall i, j :: 0 <= i < j < |db.workspaces| ==> db.workspaces[i].id != db.workspaces[j].id)
  }

  predicate Terminal(i: Instance) {
    i.state == Text("stopped") || i.state == Text("lost") || i.state == Text("failed")
  }

  predicate IsLive(s: Sandbox) {
    s.deletedAt.Null? && s.state != Text("deleted")
  }

  predicate Stopped(db: Database, s: Sandbox) {
    && s.state == Text("stopped") && s.desired == Text("stopped") && s.instance == Text("") && s.reconcileAt.Null?
    && exists w :: w in db.workspaces && w.id == s.workspace && w.mutation == Text("")
  }

  predicate Quiescent(db: Database) {
    && (forall i :: i in db.instances ==> Terminal(i))
    && (forall s :: s in db.sandboxes && IsLive(s) ==> Stopped(db, s))
  }

  lemma SandboxBlocksExactly(db: Database, s: Sandbox)
    requires WellFormed(db) && s in db.sandboxes
    ensures SandboxBlocks(db, s) <==> IsLive(s) && !(Stopped(db, s) && !HasActiveInstance(db, s))
  {
    if w :| w in db.workspaces && w.id == s.workspace {
      var i :| 0 <= i < |db.workspaces| && db.workspaces[i] == w;
      assert Joins(db, s, w);
      forall v | Joins(db, s, v) ensures v == w {
        var j :| 0 <= j < |db.workspaces| && db.workspaces[j] == v;
      }
    } else {
      assert Joins(db, s, Workspace(Null, Null));
    }
  }

  /** An active instance is always reported: through its live sandbox, or as an
      orphan. */
  lemma ActiveInstanceCovered(db: Database, i: Instance)
    requires WellFormed(db) && i in db.instances && !Terminal(i)
    ensures OrphanBlocks(db, i) || exists s :: SandboxBlocks(db, s)
  {
    if s :| s in db.sandboxes && And(Equal(s.id, i.sandbox), Live(s)) == True {
      SandboxBlocksExactly(db, s);
      var k :| 0 <= k < |db.instances| && db.instances[k] == i;
      assert And(Equal(db.instances[k].sandbox, s.id), Active(db.instances[k].state)) == True;
      assert HasActiveInstance(db, s);
      assert SandboxBlocks(db, s);
    }
  }

  /** The query finds no blocker exactly when every instance is terminal and every
      live sandbox is stopped for good, with its workspace at rest. */
  lemma NoBlockerExactly(db: Database)
    requires WellFormed(db)
    ensures NoBlocker(db) <==> Quiescent(db)
  {
    if Quiescent(db) {
      forall s ensures !SandboxBlocks(db, s) {
        if s in db.sandboxes { SandboxBlocksExactly(db, s); QuietSandbox(db, s); }
      }
    } else if NoBlocker(db) {
      forall i | i in db.instances ensures Terminal(i) {
        if !Terminal(i) { ActiveInstanceCovered(db, i); }
      }
      forall s | s in db.sandboxes && IsLive(s) ensures Stopped(db, s) { SandboxBlocksExactly(db, s); }
    }
  }

  lemma QuietSandbox(db: Database, s: Sandbox)
    requires Quiescent(db)
    ensures !HasActiveInstance(db, s)
  {
    forall k | 0 <= k < |db.instances|
      ensures Active(db.instances[k].state) != True { assert db.instances[k] in db.instances; }
  }

  /** Without the schema's constraint it would not: a null state hides a sandbox. */
  lemma NullStateHides(s: Sandbox)
    requires s.state.Null? && s.deletedAt.Null?
    ensures NoBlocker(Database([s], [], [])) && !Quiescent(Database([s], [], []))
  {
    assert s in [s];
  }
}
