/** Runner identity publication (internal/deployconfig/runner_init.go): stage five
    files, rename the directory into place, and on a later run accept only exactly
    what was published. Certificates and keys are opaque values; time is in seconds. */
module RunnerIdentity {
  import opened Outcome

  datatype Name = Certificate | PrivateKey | Authority | Environment | EgressContexts

  const NAMES: set<Name> := {Certificate, PrivateKey, Authority, Environment, EgressContexts}

  datatype CA = CA(key: nat, from: int, until: int)

  datatype Content =
    | Cert(runner: string, uris: seq<string>, ca: CA, key: nat, from: int, until: int, signs: bool, client: bool)
    | Key(key: nat)
    | CaCert(ca: CA)
    | Settings(text: string)

  datatype Entry = Entry(content: Content, mode: nat)

  type Entries = map<Name, Entry>

  datatype Directory = Directory(mode: nat, entries: Entries)

  const DIRECTORY_MODE: nat := 0x1C0

  /** What the manifest resolves to for one declared Runner; `home` is the identity
      directory a same-host Runner declares. */
  datatype Declared = Declared(
    runner: string, home: Option<string>, ca: CA, lifetimeDays: nat, environment: string, egress: string)

  predicate Misplaced(d: Declared, path: string) {
    d.home.Some? && d.home.value != path
  }

  const MINUTE: int := 60
  const DAY: int := 86400

  function Uri(runner: string): string {
    "spiffe://secondbox/runner/" + runner
  }

  function Mode(name: Name): nat {
    if name.Authority? then 0x1A4 else 0x180
  }

  /** The file `name` of an identity with private key `key` created at `now`. */
  function Generated(d: Declared, key: nat, now: int, name: Name): Entry {
    var content := match name
      case Certificate =>
        Cert(d.runner, [Uri(d.runner)], d.ca, key, now - MINUTE, now + d.lifetimeDays * DAY, true, true)
      case PrivateKey => Key(key)
      case Authority => CaCert(d.ca)
      case Environment => Settings(d.environment)
      case EgressContexts => Settings(d.egress);
    Entry(content, Mode(name))
  }

  function Identity(d: Declared, key: nat, now: int): Directory {
    Directory(DIRECTORY_MODE, map name | name in NAMES :: Generated(d, key, now, name))
  }

  predicate Holds(dir: Directory, name: Name, content: Content) {
    name in dir.entries && dir.entries[name] == Entry(content, Mode(name))
  }

  predicate Current(from: int, until: int, now: int) {
    from <= now <= until
  }

  /** `validateExistingRunnerIdentity`, check by check. */
  predicate Accepts(d: Declared, path: string, dir: Directory, now: int) {
    && !Misplaced(d, path) && dir.mode == DIRECTORY_MODE && dir.entries.Keys == NAMES
    && Holds(dir, Authority, CaCert(d.ca))
    && dir.entries[Certificate].content.Cert? && dir.entries[Certificate].mode == Mode(Certificate)
    && (var cert := dir.entries[Certificate].content;
        && cert.ca == d.ca && Current(cert.from, cert.until, now) && Current(d.ca.from, d.ca.until, now)
        && cert.client && cert.runner == d.runner && cert.uris == [Uri(d.runner)] && cert.signs
        && Holds(dir, PrivateKey, Key(cert.key)))
    && Holds(dir, Environment, Settings(d.environment))
    && Holds(dir, EgressContexts, Settings(d.egress))
  }

  /** A published identity is accepted later exactly by the same declaration at the
      declared place, and only while its certificate and its authority are within
      their lifetimes. */
  lemma AcceptedExactlyWhen(d: Declared, key: nat, now: int, other: Declared, path: string, later: int)
    ensures Accepts(other, path, Identity(d, key, now), later) <==>
              && !Misplaced(other, path) && other.runner == d.runner && other.ca == d.ca
              && other.environment == d.environment && other.egress == d.egress
              && now - MINUTE <= later <= now + d.lifetimeDays * DAY
              && d.ca.from <= later <= d.ca.until
  {
    var entries := Identity(d, key, now).entries;
    assert entries.Keys == NAMES;
    assert Environment in entries && EgressContexts in entries && Authority in entries;
    assert PrivateKey in entries && Certificate in entries;
  }

  /** So a resume after the certificate ran out refuses the identity it published. */
  lemma ExpiredIdentityIsRefused(d: Declared, path: string, key: nat, now: int)
    ensures !Accepts(d, path, Identity(d, key, now), now + d.lifetimeDays * DAY + 1)
  {
    AcceptedExactlyWhen(d, key, now, d, path, now + d.lifetimeDays * DAY + 1);
  }

  /** The private key of an identity directory. */
  function KeyOf(dir: Directory): Option<nat> {
    if PrivateKey in dir.entries && dir.entries[PrivateKey].content.Key? then Some(dir.entries[PrivateKey].content.key)
    else None
  }

  lemma IdentityHasKey(d: Declared, key: nat, now: int)
    ensures KeyOf(Identity(d, key, now)) == Some(key)
  {
    assert PrivateKey in NAMES;
  }

  /** The target directory and the staging directories beside it. */
  class Parent {
    const path: string
    var target: Option<Directory>
    var staging: Entries
    ghost var published: seq<Directory>     // everything ever renamed to the target
    ghost var faults: nat

    /** The target is absent or holds the one identity ever published, whole. */
    ghost predicate Valid()
      reads this
    {
      && |published| <= 1
      && target == (if published == [] then None else Some(published[0]))
      && (forall dir :: dir in published ==> exists d, key, now :: dir == Identity(d, key, now))
    }

    /** A file call: on anything but success the file may be there or not. */
    method Write(name: Name, entry: Entry) returns (r: Reply)
      modifies this`staging, this`faults
      ensures r == Alive(true) ==> staging == old(staging)[name := entry]
      ensures faults == old(faults) + (if r == Alive(true) then 0 else 1)
    {
      r := *;
      if r == Alive(true) { staging := staging[name := entry]; } else { staging := *; faults := faults + 1; }
    }

    /** Renames the staging directory into place, unless that fails. */
    method Publish(ghost d: Declared, ghost key: nat, ghost now: int) returns (r: Reply)
      requires Valid() && target.None? && staging == Identity(d, key, now).entries
      modifies this
      ensures Valid() && (published == old(published) || published == [Identity(d, key, now)])
      ensures r == Alive(true) ==> published == [Identity(d, key, now)]
      ensures faults == old(faults) + (if r == Alive(true) then 0 else 1)
    {
      r := *;
      var renamed: bool := *;
      if r == Alive(true) || renamed {
        target := Some(Directory(DIRECTORY_MODE, staging));
        published := published + [Directory(DIRECTORY_MODE, staging)];
        staging := map[];
      }
      faults := faults + (if r == Alive(true) then 0 else 1);
    }

    /** Writes the five files in any order, the rendered environment last, and
        publishes them together. */
    method RunnerInit(d: Declared, now: int, key: nat) returns (r: Reply)
      requires Valid()
      modifies this
      ensures Valid()
              && (old(target).Some? ==> target == old(target) && published == old(published) && r == Alive(false))
      ensures published == old(published) || published == [Identity(d, key, now)]
      ensures old(target).None? ==> (r == Alive(true) <==> faults == old(faults) && !Misplaced(d, path))
      ensures r == Alive(true) ==> target == Some(Identity(d, key, now))
    {
      if Misplaced(d, path) || target.Some? { return Alive(false); }
      staging := map[];
      var pending := NAMES - {Environment};
      while pending != {}
        invariant Valid() && target == old(target) && published == old(published) && faults == old(faults)
        invariant pending <= NAMES - {Environment}
        invariant staging == map name | name in NAMES - {Environment} - pending :: Generated(d, key, now, name)
        decreases pending
      {
        var name :| name in pending;
        var ok :- Write(name, Generated(d, key, now, name));
        if !ok { return Alive(false); }
        pending := pending - {name};
      }
      var ok :- Write(Environment, Generated(d, key, now, Environment));
      if !ok { return Alive(false); }
      assert staging == Identity(d, key, now).entries;
      r := Publish(d, key, now);
    }

    /** `RunnerInitOrValidate`: over any number of crashed runs at most one
        identity is published, and what is there is accepted or refused as is. */
    method RunnerInitOrValidate(d: Declared, now: int, key: nat) returns (r: Reply)
      requires Valid()
      modifies this
      ensures Valid() && (published == old(published) || (old(published) == [] && published == [Identity(d, key, now)]))
      ensures old(target).Some? ==> target == old(target)
      ensures old(target).Some? && faults == old(faults) ==>
                (r == Alive(true) <==> Accepts(d, path, old(target).value, now))
      ensures old(target).None? ==> (r == Alive(true) <==> faults == old(faults) && !Misplaced(d, path))
      ensures r == Alive(true) ==> target.Some?
      ensures r == Alive(true) && d.ca.from <= now <= d.ca.until ==> Accepts(d, path, target.value, now)
    {
      if target.None? {
        r := RunnerInit(d, now, key);
        AcceptedExactlyWhen(d, key, now, d, path, now);
      } else {
        r := *;
        if r != Alive(true) { faults := faults + 1; return; }
        r := Alive(Accepts(d, path, target.value, now));
      }
    }
  }
}
