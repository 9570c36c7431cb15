/** Which Compose files a manifest selects: the reader of recorded manifests
    (internal/deployconfig/compose.go) against the shape validator and the full
    resolver (internal/deployconfig/load.go). */
module Topology {
  datatype Runner = Runner(id: string, pool: string, placement: string, backend: string)

  datatype Manifest = Manifest(mode: string, project: string, cidr: string, database: string, runners: seq<Runner>)

  const FIRECRACKER := "firecracker"
  const GVISOR := "gvisor"
  const DEFAULT_PROJECT := "secondbox"

  predicate ProjectChar(c: char) {
    'a' <= c <= 'z' || '0' <= c <= '9'
  }

  /** A lower-case letter or digit, then at most 62 of those, `_` or `-`. */
  predicate ProjectPattern(project: string) {
    && 1 <= |project| <= 63 && ProjectChar(project[0])
    && forall i :: 1 <= i < |project| ==> ProjectChar(project[i]) || project[i] == '_' || project[i] == '-'
  }

  function RunnerFile(backend: string): string {
    if backend == GVISOR then "deploy/compose.same-host-gvisor-runner.yml" else "deploy/compose.same-host-runner.yml"
  }

  /** What a topology needs before any Runner: the base, an explicit network, and
      the overlay of its mode and database. */
  function BaseFiles(m: Manifest): seq<string> {
    ["deploy/compose.yml"]
    + (if m.cidr != "" then ["deploy/compose.explicit-network.yml"] else [])
    + (if m.mode == "development" then ["deploy/compose.development.yml"]
       else if m.database == "bundled" then ["deploy/compose.bundled-database.yml"] else [])
  }

  /** The files of a topology: the base, then one for every same-host Runner. */
  function Selected(m: Manifest, n: nat): seq<string>
    requires n <= |m.runners|
  {
    if n == 0 then BaseFiles(m)
    else Selected(m, n - 1)
         + (if m.runners[n - 1].placement == "same-host" then [RunnerFile(m.runners[n - 1].backend)] else [])
  }

  // ---- The topologies each side accepts ----

  predicate KnownModes(m: Manifest) {
    && (m.mode == "development" || m.mode == "production") && (m.database == "bundled" || m.database == "external")
    && (m.project == "" || ProjectPattern(m.project))
  }

  predicate Placed(m: Manifest) {
    && (forall i :: 0 <= i < |m.runners| ==>
          m.runners[i].placement == "same-host" || m.runners[i].placement == "remote")
    && (forall i, j :: 0 <= i < j < |m.runners| ==>
          m.runners[i].placement != "same-host" || m.runners[j].placement != "same-host")
  }

  /** Runner `n` is acceptable beside the ones before it. */
  predicate Fits(m: Manifest, n: nat)
    requires n < |m.runners|
  {
    var r := m.runners[n];
    && (r.placement == "same-host" || r.placement == "remote") && (r.backend == FIRECRACKER || r.backend == GVISOR)
    && (forall i :: 0 <= i < n ==> m.runners[i].id != r.id)
    && (r.placement == "same-host" ==> forall i :: 0 <= i < n ==> m.runners[i].placement != "same-host")
    && (forall i :: 0 <= i < n && m.runners[i].pool == r.pool ==> m.runners[i].backend == r.backend)
  }

  /** What the shape validator accepts, as far as it concerns the topology. */
  predicate ShapeValid(m: Manifest) {
    && KnownModes(m) && (m.mode == "development" ==> m.database == "bundled")
    && forall n :: 0 <= n < |m.runners| ==> Fits(m, n)
  }

  /** `recordedInstallerComposeIdentity`: the topology fields alone, with the
      backend of older manifests filled in. */
  method RecordedIdentity(m: Manifest) returns (ok: bool, project: string, files: seq<string>)
    ensures ok <==> KnownModes(m) && Placed(m)
    ensures ok ==> files == Selected(m, |m.runners|)
                   && project == (if m.project == "" then DEFAULT_PROJECT else m.project)
  {
    files, project := [], m.project;
    if m.mode != "development" && m.mode != "production" { return false, project, files; }
    if m.database != "bundled" && m.database != "external" { return false, project, files; }
    files := ["deploy/compose.yml"];
    if m.cidr != "" { files := files + ["deploy/compose.explicit-network.yml"]; }
    if m.mode == "development" {
      files := files + ["deploy/compose.development.yml"];
    } else if m.database == "bundled" {
      files := files + ["deploy/compose.bundled-database.yml"];
    }
    var sameHost := false;
    for i := 0 to |m.runners|
      invariant files == Selected(m, i)
      invariant sameHost <==> exists j :: 0 <= j < i && m.runners[j].placement == "same-host"
      invariant forall j :: 0 <= j < i ==> m.runners[j].placement == "same-host" || m.runners[j].placement == "remote"
      invariant forall j, k :: 0 <= j < k < i ==>
                  m.runners[j].placement != "same-host" || m.runners[k].placement != "same-host"
    {
      if m.runners[i].placement == "same-host" {
        if sameHost { return false, project, files; }
        sameHost := true;
        var backend := if m.runners[i].backend == "" then FIRECRACKER else m.runners[i].backend;
        files := files + [RunnerFile(backend)];
      } else if m.runners[i].placement != "remote" {
        return false, project, files;
      }
    }
    if project == "" { project := DEFAULT_PROJECT; } else if !ProjectPattern(project) { return false, project, files; }
    return true, project, files;
  }

  /** The resolver's selection, which trusts the validator. */
  method ResolveFiles(m: Manifest) returns (files: seq<string>)
    ensures files == Selected(m, |m.runners|)
  {
    files := ["deploy/compose.yml"];
    if m.cidr != "" { files := files + ["deploy/compose.explicit-network.yml"]; }
    if m.mode == "development" {
      files := files + ["deploy/compose.development.yml"];
    } else {
      if m.database == "bundled" { files := files + ["deploy/compose.bundled-database.yml"]; }
    }
    for i := 0 to |m.runners|
      invariant files == Selected(m, i)
    {
      if m.runners[i].placement == "same-host" { files := files + [RunnerFile(m.runners[i].backend)]; }
    }
  }

  /** The seen sets hold exactly what the first `n` Runners declare. */
  ghost predicate Tracked(m: Manifest, n: nat, seen: set<string>, pools: map<string, string>, sameHost: bool)
    requires n <= |m.runners|
  {
    && (forall id :: id in seen <==> exists i :: 0 <= i < n && m.runners[i].id == id)
    && (forall i :: 0 <= i < n ==> m.runners[i].pool in pools && pools[m.runners[i].pool] == m.runners[i].backend)
    && (forall pool :: pool in pools ==> exists i :: 0 <= i < n && m.runners[i].pool == pool)
    && (sameHost <==> exists i :: 0 <= i < n && m.runners[i].placement == "same-host")
  }

  /** The checks of one loop iteration against the seen sets. */
  predicate Passes(r: Runner, seen: set<string>, pools: map<string, string>, sameHost: bool) {
    && r.id !in seen && (r.placement == "same-host" || r.placement == "remote")
    && !(r.placement == "same-host" && sameHost) && (r.backend == FIRECRACKER || r.backend == GVISOR)
    && (r.pool in pools ==> pools[r.pool] == r.backend)
  }

  lemma PassesMeansFits(m: Manifest, n: nat, seen: set<string>, pools: map<string, string>, sameHost: bool)
    requires n < |m.runners| && Tracked(m, n, seen, pools, sameHost)
    ensures Passes(m.runners[n], seen, pools, sameHost) <==> Fits(m, n)
  {
  }

  lemma TrackedGrows(m: Manifest, n: nat, seen: set<string>, pools: map<string, string>, sameHost: bool)
    requires n < |m.runners| && Tracked(m, n, seen, pools, sameHost) && Fits(m, n)
    ensures var r := m.runners[n];
            Tracked(m, n + 1, seen + {r.id}, pools[r.pool := r.backend], sameHost || r.placement == "same-host")
  {
  }

  /** The validator's loop over Runners with its seen sets. */
  method ValidateShape(m: Manifest) returns (ok: bool)
    ensures ok <==> ShapeValid(m)
  {
    if !KnownModes(m) || (m.mode == "development" && m.database != "bundled") { return false; }
    var seen: set<string>, pools: map<string, string>, sameHost := {}, map[], false;
    for i := 0 to |m.runners|
      invariant Tracked(m, i, seen, pools, sameHost)
      invariant forall n :: 0 <= n < i ==> Fits(m, n)
    {
      var r := m.runners[i];
      PassesMeansFits(m, i, seen, pools, sameHost);
      if !Passes(r, seen, pools, sameHost) { return false; }
      TrackedGrows(m, i, seen, pools, sameHost);
      seen, pools, sameHost := seen + {r.id}, pools[r.pool := r.backend], sameHost || r.placement == "same-host";
    }
    return true;
  }

  lemma ValidIsPlaced(m: Manifest)
    requires ShapeValid(m)
    ensures KnownModes(m) && Placed(m)
  {
    forall i, j | 0 <= i < j < |m.runners|
      ensures m.runners[i].placement != "same-host" || m.runners[j].placement != "same-host"
    {
      assert Fits(m, j);
    }
    forall i | 0 <= i < |m.runners|
      ensures m.runners[i].placement == "same-host" || m.runners[i].placement == "remote" {
      assert Fits(m, i);
    }
  }

  /** On every manifest the validator accepts, the reader accepts it too and
      selects the resolver's files in the resolver's order. */
  method SelectionsAgree(m: Manifest)
    returns (valid: bool, accepted: bool, recorded: seq<string>, resolved: seq<string>)
    ensures valid <==> ShapeValid(m)
    ensures valid ==> accepted
    ensures accepted ==> recorded == resolved
  {
    valid := ValidateShape(m);
    if valid { ValidIsPlaced(m); }
    var project;
    accepted, project, recorded := RecordedIdentity(m);
    resolved := ResolveFiles(m);
  }
}
