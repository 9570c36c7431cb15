/** Checking a rendered environment with the control plane's own loader, which
    reads the process environment (internal/deployconfig/load.go). */
module EnvironmentSwap {
  type Variables = map<string, string>

  const PREFIX := "SECONDBOX_"

  predicate Owned(name: string) {
    PREFIX <= name
  }

  function OwnedPart(v: Variables): Variables {
    map name | name in v && Owned(name) :: v[name]
  }

  ghost predicate SameForeign(v: Variables, w: Variables) {
    forall name :: !Owned(name) ==> (name in v <==> name in w) && (name in v ==> v[name] == w[name])
  }

  /** Two environments that agree inside and outside the prefix are equal. */
  lemma SameParts(v: Variables, w: Variables)
    requires OwnedPart(v) == OwnedPart(w) && SameForeign(v, w)
    ensures v == w
  {
    forall name ensures (name in v <==> name in w) && (name in v ==> v[name] == w[name]) {
      if Owned(name) { assert name in v <==> name in OwnedPart(v); assert name in w <==> name in OwnedPart(w); }
    }
    assert v.Keys == w.Keys;
  }

  /** The owned entries of `values` that are no longer outstanding. */
  function Rendered(values: Variables, todo: set<string>): Variables {
    map name | name in values && Owned(name) && name !in todo :: values[name]
  }

  lemma RenderedGrows(values: Variables, todo: set<string>, name: string)
    requires name in todo && name in values
    ensures Rendered(values, todo - {name}) ==
              if Owned(name) then Rendered(values, todo)[name := values[name]] else Rendered(values, todo)
  {
  }

  lemma OwnedGrows(v: Variables, name: string, value: string)
    requires Owned(name)
    ensures OwnedPart(v[name := value]) == OwnedPart(v)[name := value]
  {
  }

  class Process {
    var env: Variables
    ghost var faults: nat              // calls of the swap that failed
    ghost var restoreFaults: nat       // calls of the deferred restore that failed
    ghost var views: seq<Variables>    // the environments the loader ran in

    method Set(name: string, value: string, ghost restoring: bool) returns (ok: bool)
      modifies this`env, this`faults, this`restoreFaults
      ensures env == if ok then old(env)[name := value] else old(env)
      ensures faults == old(faults) + (if ok || restoring then 0 else 1)
      ensures restoreFaults == old(restoreFaults) + (if ok || !restoring then 0 else 1)
    {
      ok := *;
      if ok { env := env[name := value]; }
      faults := faults + (if ok || restoring then 0 else 1);
      restoreFaults := restoreFaults + (if ok || !restoring then 0 else 1);
    }

    method Unset(name: string, ghost restoring: bool) returns (ok: bool)
      modifies this`env, this`faults, this`restoreFaults
      ensures env == if ok then old(env) - {name} else old(env)
      ensures faults == old(faults) + (if ok || restoring then 0 else 1)
      ensures restoreFaults == old(restoreFaults) + (if ok || !restoring then 0 else 1)
    {
      ok := *;
      if ok { env := env - {name}; }
      faults := faults + (if ok || restoring then 0 else 1);
      restoreFaults := restoreFaults + (if ok || !restoring then 0 else 1);
    }

    /** The control plane's own loader reads the environment of the process. */
    method Load(loads: Variables -> bool) returns (ok: bool)
      modifies this`views
      ensures views == old(views) + [env] && ok == loads(env)
    {
      views := views + [env];
      return loads(env);
    }

    /** Clears `names`, stopping at the first failure. */
    method Clear(names: set<string>) returns (ok: bool)
      requires forall name :: name in names ==> Owned(name)
      modifies this`env, this`faults, this`restoreFaults
      ensures SameForeign(old(env), env) && (ok ==> env == old(env) - names)
      ensures (ok <==> faults == old(faults)) && faults >= old(faults) && restoreFaults == old(restoreFaults)
    {
      var todo := names;
      while todo != {}
        invariant todo <= names && env == old(env) - (names - todo)
        invariant faults == old(faults) && restoreFaults == old(restoreFaults)
        decreases todo
      {
        var name :| name in todo;
        ok := Unset(name, false);
        if !ok { return; }
        todo := todo - {name};
      }
      return true;
    }

    /** Sets the owned entries of `values`, stopping at the first failure. */
    method Render(values: Variables) returns (ok: bool)
      modifies this`env, this`faults, this`restoreFaults
      ensures SameForeign(old(env), env) && (ok ==> env == old(env) + OwnedPart(values))
      ensures (ok <==> faults == old(faults)) && faults >= old(faults) && restoreFaults == old(restoreFaults)
    {
      var todo := values.Keys;
      assert env + Rendered(values, todo) == env by { assert Rendered(values, todo) == map[]; }
      while todo != {}
        invariant todo <= values.Keys && env == old(env) + Rendered(values, todo)
        invariant SameForeign(old(env), env) && faults == old(faults) && restoreFaults == old(restoreFaults)
        decreases todo
      {
        var name :| name in todo;
        RenderedGrows(values, todo, name);
        if Owned(name) {
          ok := Set(name, values[name], false);
          if !ok { return; }
        }
        todo := todo - {name};
      }
      assert Rendered(values, {}) == OwnedPart(values);
      return true;
    }

    /** The deferred restore: tries every call even after a failure. */
    method Restore(original: Variables) returns (ok: bool)
      requires forall name :: name in original ==> Owned(name)
      modifies this`env, this`faults, this`restoreFaults
      ensures SameForeign(old(env), env) && (ok ==> OwnedPart(env) == original)
      ensures (ok <==> restoreFaults == old(restoreFaults)) && faults == old(faults)
    {
      ok := Drop();
      assert Rendered(original, original.Keys) == map[];
      var todo := original.Keys;
      while todo != {}
        invariant todo <= original.Keys && SameForeign(old(env), env)
        invariant ok ==> OwnedPart(env) == Rendered(original, todo)
        invariant (ok <==> restoreFaults == old(restoreFaults)) && restoreFaults >= old(restoreFaults)
        invariant faults == old(faults)
        decreases todo
      {
        var name :| name in todo;
        OwnedGrows(env, name, original[name]);
        RenderedGrows(original, todo, name);
        var done := Set(name, original[name], true);
        ok := ok && done;
        todo := todo - {name};
      }
      assert Rendered(original, {}) == original;
    }

    method Drop() returns (ok: bool)
      modifies this`env, this`faults, this`restoreFaults
      ensures SameForeign(old(env), env) && (ok ==> OwnedPart(env) == map[])
      ensures (ok <==> restoreFaults == old(restoreFaults)) && restoreFaults >= old(restoreFaults)
      ensures faults == old(faults)
    {
      ok := true;
      var todo := OwnedPart(env).Keys;
      while todo != {}
        invariant SameForeign(old(env), env) && (forall name :: name in todo ==> Owned(name))
        invariant ok ==> OwnedPart(env).Keys == todo
        invariant (ok <==> restoreFaults == old(restoreFaults)) && restoreFaults >= old(restoreFaults)
        invariant faults == old(faults)
        decreases todo
      {
        var name :| name in todo;
        var unset := Unset(name, true);
        ok := ok && unset;
        todo := todo - {name};
      }
    }

    /** `validateControlPlaneEnvironment`: unless a call of the swap failed, the
        loader runs once and sees exactly the rendered owned entries; unless a call
        of the restore failed, the swap leaves no trace, on every exit. */
    method Validate(rendered: Variables, loads: Variables -> bool) returns (ok: bool, restored: bool)
      modifies this
      ensures SameForeign(old(env), env)
      ensures restored <==> restoreFaults == old(restoreFaults)
      ensures restored ==> env == old(env)
      ensures faults >= old(faults) && (faults > old(faults) ==> views == old(views))
      ensures faults == old(faults) ==>
                && |views| == |old(views)| + 1 && views[..|old(views)|] == old(views)
                && var seen := views[|old(views)|];
                   OwnedPart(seen) == OwnedPart(rendered) && SameForeign(old(env), seen)
      ensures ok <==> restored && faults == old(faults) && loads(views[|old(views)|])
    {
      ghost var before := env;
      var original := OwnedPart(env);
      ok := Clear(original.Keys);
      if ok { ok := Render(rendered); }
      if ok {
        Swapped(before, env, rendered);
        ok := Load(loads);
      }
      restored := Restore(original);
      if restored { SameParts(env, before); }
      ok := ok && restored;
    }
  }

  lemma Swapped(before: Variables, after: Variables, rendered: Variables)
    requires after == (before - OwnedPart(before).Keys) + OwnedPart(rendered)
    ensures OwnedPart(after) == OwnedPart(rendered)
  {
    assert forall name :: name in before && Owned(name) ==> name in OwnedPart(before);
  }
}
