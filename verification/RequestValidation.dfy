/** Naming the refused part of a request (internal/api/request_validation.go). */
module RequestValidation {
  // ---- Documents and destination types ----

  /** Decoding an object keeps the last of several equal keys. */
  datatype Json = Atom(text: string) | Arr(elements: seq<Json>) | Obj(members: seq<(string, Json)>)

  type TypeId = nat

  datatype Kind =
    | Scalar
    | Pointer(elem: TypeId)
    | Struct(fields: seq<Field>)
    | Slice(elem: TypeId)
    | MapOf(elem: TypeId)

  datatype Field = Field(name: string, tag: string, anonymous: bool, exported: bool, typ: TypeId)

  /** `rank` measures how deep pointers and embedded structs nest; Go types that
      nest without end have none and would never let the search return. `fold` maps
      a character to the representative of all that differ from it only in case. */
  datatype Types = Types(kind: TypeId -> Kind, rank: TypeId -> nat, fold: Folding)

  type Folding = char -> char

  datatype MemberName = Skipped | Promoted | Named(name: string)

  ghost predicate WellFounded(types: Types) {
    && (forall t :: types.kind(t).Pointer? ==> types.rank(types.kind(t).elem) < types.rank(t))
    && (forall t :: types.kind(t).Struct? ==> EmbedsBelow(types, types.kind(t).fields, types.rank(t)))
  }

  predicate EmbedsBelow(types: Types, fields: seq<Field>, rank: nat) {
    forall i :: 0 <= i < |fields| && fields[i].anonymous ==> types.rank(fields[i].typ) < rank
  }

  /** The type behind any number of pointers. */
  function Base(types: Types, t: TypeId): (base: TypeId)
    requires WellFounded(types)
    ensures !types.kind(base).Pointer? && types.rank(base) <= types.rank(t)
    decreases types.rank(t)
  {
    if types.kind(t).Pointer? then Base(types, types.kind(t).elem) else t
  }

  function BeforeComma(tag: string): string {
    if tag == "" || tag[0] == ',' then "" else [tag[0]] + BeforeComma(tag[1..])
  }

  /** `jsonMemberName`. */
  function NameOf(types: Types, f: Field): MemberName
    requires WellFounded(types)
  {
    if f.tag == "-" then Skipped
    else if BeforeComma(f.tag) == "" && f.anonymous && types.kind(Base(types, f.typ)).Struct? then Promoted
    else if !f.exported then Skipped
    else if BeforeComma(f.tag) == "" then Named(f.name)
    else Named(BeforeComma(f.tag))
  }

  function Fold(fold: Folding, s: string): string {
    seq(|s|, i requires 0 <= i < |s| => fold(s[i]))
  }

  /** Letters of the ASCII range fold together in pairs. */
  ghost predicate FoldsLetters(fold: Folding) {
    forall c: char :: 'A' <= c <= 'Z' ==> fold(c) == fold(c - 'A' + 'a')
  }

  function Keys(members: seq<(string, Json)>): set<string> {
    set i | 0 <= i < |members| :: members[i].0
  }

  function Get(members: seq<(string, Json)>, key: string): (value: Json)
    requires key in Keys(members)
    ensures exists i :: 0 <= i < |members| && value == members[i].1
  {
    var last := |members| - 1;
    if members[last].0 == key then members[last].1
    else
      assert forall k :: k in Keys(members) && k != members[last].0 ==> k in Keys(members[..last]) by {
        forall k | k in Keys(members) && k != members[last].0 ensures k in Keys(members[..last]) {
          var i :| 0 <= i < |members| && members[i].0 == k;
          assert members[..last][i].0 == k;
        }
      }
      Get(members[..last], key)
  }

  /** The keys encoding/json may decode into a field: the exact one, else any that
      folds to the same name. */
  function CandidateKeys(fold: Folding, members: seq<(string, Json)>, name: string): set<string> {
    if name in Keys(members) then {name} else set key | key in Keys(members) && Fold(fold, key) == Fold(fold, name)
  }

  const ECHOED_NAME_LIMIT: nat := 128

  /** Bytes of a character in UTF-8. */
  function CharBytes(c: char): nat {
    if c as int < 0x80 then 1 else if c as int < 0x800 then 2 else if c as int < 0x10000 then 3 else 4
  }

  function ByteLength(s: string): nat {
    if s == "" then 0 else CharBytes(s[0]) + ByteLength(s[1..])
  }

  /** Longer keys are never reported. */
  predicate Reportable(key: string) {
    ByteLength(key) <= ECHOED_NAME_LIMIT
  }

  datatype Segment = Member(key: string) | Index(i: nat)

  // ---- What a path means ----

  type Refusal = (Json, TypeId) -> bool

  predicate FieldStep(types: Types, v: Json, f: Field, rank: nat, seg: Segment, c: Json, ct: TypeId)
    requires WellFounded(types) && v.Obj? && (f.anonymous ==> types.rank(f.typ) < rank)
    decreases rank, 0
  {
    match NameOf(types, f)
    case Skipped => false
    case Promoted => Step(types, v, f.typ, seg, c, ct)
    case Named(name) =>
      && seg.Member? && seg.key in CandidateKeys(types.fold, v.members, name)
      && c == Get(v.members, seg.key) && ct == f.typ
  }

  /** `c`, decoded as `ct`, is a part of `v` decoded as `t`, reached by `seg`. */
  predicate Step(types: Types, v: Json, t: TypeId, seg: Segment, c: Json, ct: TypeId)
    requires WellFounded(types)
    decreases types.rank(t), 1
  {
    match types.kind(Base(types, t))
    case Struct(fields) =>
      v.Obj? && exists i :: 0 <= i < |fields| && FieldStep(types, v, fields[i], types.rank(Base(types, t)), seg, c, ct)
    case Slice(elem) => v.Arr? && seg.Index? && seg.i < |v.elements| && c == v.elements[seg.i] && ct == elem
    case MapOf(elem) =>
      && v.Obj? && seg.Member? && Reportable(seg.key) && seg.key in Keys(v.members)
      && c == Get(v.members, seg.key) && ct == elem
    case _ => false
  }

  ghost predicate FieldStops(types: Types, v: Json, f: Field, rank: nat, refused: Refusal)
    requires WellFounded(types) && v.Obj? && (f.anonymous ==> types.rank(f.typ) < rank)
    decreases rank, 0
  {
    match NameOf(types, f)
    case Skipped => true
    case Promoted => Stops(types, v, f.typ, refused)
    case Named(name) =>
      var keys := CandidateKeys(types.fold, v.members, name);
      keys == {} || exists key :: key in keys && !refused(Get(v.members, key), f.typ)
  }

  /** The search ends at `v`: of every field one candidate was tried in vain. */
  ghost predicate Stops(types: Types, v: Json, t: TypeId, refused: Refusal)
    requires WellFounded(types)
    decreases types.rank(t), 1
  {
    match types.kind(Base(types, t))
    case Struct(fields) =>
      v.Obj? ==> forall i :: 0 <= i < |fields| ==> FieldStops(types, v, fields[i], types.rank(Base(types, t)), refused)
    case Slice(elem) => v.Arr? ==> forall i :: 0 <= i < |v.elements| ==> !refused(v.elements[i], elem)
    case MapOf(elem) =>
      v.Obj? ==> forall key :: key in Keys(v.members) && Reportable(key) ==> !refused(Get(v.members, key), elem)
    case _ => true
  }

  /** Byte order of keys, in which map values are visited. */
  predicate LexLeq(a: string, b: string) {
    a == "" || (b != "" && (a[0] < b[0] || (a[0] == b[0] && LexLeq(a[1..], b[1..]))))
  }

  /** A key that may be reported and is visited before `other`. */
  predicate Before(key: string, other: string) {
    Reportable(key) && key != other && LexLeq(key, other)
  }

  predicate IsLeast(key: string, keys: set<string>) {
    key in keys && forall other :: other in keys ==> LexLeq(key, other)
  }

  ghost predicate FieldChosen(
    types: Types, v: Json, f: Field, rank: nat, seg: Segment, c: Json, ct: TypeId, refused: Refusal)
    requires WellFounded(types) && v.Obj? && (f.anonymous ==> types.rank(f.typ) < rank)
    decreases rank, 0
  {
    if NameOf(types, f).Promoted? then Chosen(types, v, f.typ, seg, c, ct, refused)
    else FieldStep(types, v, f, rank, seg, c, ct)
  }

  /** The part is the first one that can be taken: no field, element or key before
      it reproduces the refusal. */
  ghost predicate Chosen(types: Types, v: Json, t: TypeId, seg: Segment, c: Json, ct: TypeId, refused: Refusal)
    requires WellFounded(types)
    decreases types.rank(t), 1
  {
    match types.kind(Base(types, t))
    case Struct(fields) =>
      v.Obj? && exists i ::
        && 0 <= i < |fields| && FieldChosen(types, v, fields[i], types.rank(Base(types, t)), seg, c, ct, refused)
        && forall j :: 0 <= j < i ==> FieldStops(types, v, fields[j], types.rank(Base(types, t)), refused)
    case Slice(elem) =>
      Step(types, v, t, seg, c, ct) && forall j :: 0 <= j < seg.i ==> !refused(v.elements[j], elem)
    case MapOf(elem) =>
      && Step(types, v, t, seg, c, ct)
      && forall key :: key in Keys(v.members) && Before(key, seg.key) ==> !refused(Get(v.members, key), elem)
    case _ => false
  }

  lemma {:induction false} ChosenIsStep(
    types: Types, v: Json, t: TypeId, seg: Segment, c: Json, ct: TypeId, refused: Refusal)
    requires WellFounded(types) && Chosen(types, v, t, seg, c, ct, refused)
    ensures Step(types, v, t, seg, c, ct)
    decreases types.rank(t)
  {
    var base := Base(types, t);
    if types.kind(base).Struct? {
      var fields := types.kind(base).fields;
      var i :| 0 <= i < |fields| && FieldChosen(types, v, fields[i], types.rank(base), seg, c, ct, refused);
      if NameOf(types, fields[i]).Promoted? { ChosenIsStep(types, v, fields[i].typ, seg, c, ct, refused); }
      assert FieldStep(types, v, fields[i], types.rank(base), seg, c, ct);
    }
  }

  /** Every value along the path is the first part that reproduces the refusal at
      its own type, and the search ends at the last one. */
  ghost predicate Located(types: Types, v: Json, t: TypeId, path: seq<Segment>, refused: Refusal)
    requires WellFounded(types)
    decreases |path|
  {
    if path == [] then Stops(types, v, t, refused)
    else exists c, ct ::
      Chosen(types, v, t, path[0], c, ct, refused) && refused(c, ct) && Located(types, c, ct, path[1..], refused)
  }

  ghost predicate FieldLocated(types: Types, v: Json, f: Field, rank: nat, path: seq<Segment>, refused: Refusal)
    requires WellFounded(types) && v.Obj? && (f.anonymous ==> types.rank(f.typ) < rank)
  {
    if path == [] then FieldStops(types, v, f, rank, refused)
    else exists c, ct ::
      FieldChosen(types, v, f, rank, path[0], c, ct, refused) && refused(c, ct)
      && Located(types, c, ct, path[1..], refused)
  }

  // ---- The search ----

  lemma ExtendPath(
    types: Types, v: Json, t: TypeId, seg: Segment, c: Json, ct: TypeId, rest: seq<Segment>, refused: Refusal)
    requires WellFounded(types) && Chosen(types, v, t, seg, c, ct, refused) && refused(c, ct)
    requires Located(types, c, ct, rest, refused)
    ensures Located(types, v, t, [seg] + rest, refused)
  {
    assert ([seg] + rest)[1..] == rest;
  }

  /** A path found through a field, when the fields before it stop. */
  lemma FieldPath(types: Types, v: Json, t: TypeId, i: nat, path: seq<Segment>, refused: Refusal)
    requires WellFounded(types) && v.Obj? && types.kind(Base(types, t)).Struct?
             && i < |types.kind(Base(types, t)).fields|
    requires var fields, rank := types.kind(Base(types, t)).fields, types.rank(Base(types, t));
             && path != [] && FieldLocated(types, v, fields[i], rank, path, refused)
             && forall j :: 0 <= j < i ==> FieldStops(types, v, fields[j], rank, refused)
    ensures Located(types, v, t, path, refused)
  {
    var fields, rank := types.kind(Base(types, t)).fields, types.rank(Base(types, t));
    var c, ct :| FieldChosen(types, v, fields[i], rank, path[0], c, ct, refused) && refused(c, ct)
                 && Located(types, c, ct, path[1..], refused);
    assert Chosen(types, v, t, path[0], c, ct, refused);
  }

  /** `jsonObjectMember`; several folded keys leave the choice to map order. */
  method ObjectMember(fold: Folding, members: seq<(string, Json)>, name: string) returns (present: bool, key: string)
    ensures present <==> CandidateKeys(fold, members, name) != {}
    ensures present ==> key in CandidateKeys(fold, members, name) && key in Keys(members)
  {
    if name in Keys(members) { return true, name; }
    var folded := set key | key in Keys(members) && Fold(fold, key) == Fold(fold, name);
    if folded == {} { return false, ""; }
    key :| key in folded;
    return true, key;
  }

  /** `locateRefusedJSONMember`. Embedded structs search the same value again, so
      termination needs the embedding depth beside the document's. */
  method Locate(types: Types, v: Json, t: TypeId, refused: Refusal) returns (path: seq<Segment>)
    requires WellFounded(types)
    ensures Located(types, v, t, path, refused)
    decreases v, types.rank(t), 1
  {
    match types.kind(Base(types, t))
    case Struct(fields) =>
      if !v.Obj? { return []; }
      for i := 0 to |fields|
        invariant forall j :: 0 <= j < i ==> FieldStops(types, v, fields[j], types.rank(Base(types, t)), refused)
      {
        path := LocateField(types, v, t, i, refused);
        if path != [] { FieldPath(types, v, t, i, path, refused); return; }
      }
      return [];
    case Slice(elem) =>
      if !v.Arr? { return []; }
      for i := 0 to |v.elements|
        invariant forall j :: 0 <= j < i ==> !refused(v.elements[j], elem)
      {
        if refused(v.elements[i], elem) {
          var rest := Locate(types, v.elements[i], elem, refused);
          ExtendPath(types, v, t, Index(i), v.elements[i], elem, rest, refused);
          return [Index(i)] + rest;
        }
      }
      return [];
    case MapOf(elem) =>
      path := LocateValue(types, v, t, refused);
    case _ =>
      return [];
  }

  method LocateField(types: Types, v: Json, t: TypeId, i: nat, refused: Refusal) returns (path: seq<Segment>)
    requires WellFounded(types) && v.Obj? && types.kind(Base(types, t)).Struct?
             && i < |types.kind(Base(types, t)).fields|
    ensures FieldLocated(types, v, types.kind(Base(types, t)).fields[i], types.rank(Base(types, t)), path, refused)
    decreases v, types.rank(t), 0
  {
    var f := types.kind(Base(types, t)).fields[i];
    match NameOf(types, f)
    case Skipped => return [];
    case Promoted =>
      path := Locate(types, v, f.typ, refused);
    case Named(name) =>
      var present, key := ObjectMember(types.fold, v.members, name);
      if !present || !refused(Get(v.members, key), f.typ) { return []; }
      var rest := Locate(types, Get(v.members, key), f.typ, refused);
      path := [Member(key)] + rest;
      assert FieldStep(types, v, f, types.rank(Base(types, t)), path[0], Get(v.members, key), f.typ);
      assert path[1..] == rest;
  }

  method LocateValue(types: Types, v: Json, t: TypeId, refused: Refusal) returns (path: seq<Segment>)
    requires WellFounded(types) && types.kind(Base(types, t)).MapOf?
    ensures Located(types, v, t, path, refused)
    decreases v, types.rank(t), 0
  {
    if !v.Obj? { return []; }
    var elem := types.kind(Base(types, t)).elem;
    var todo := Keys(v.members);
    while todo != {}
      invariant todo <= Keys(v.members)
      invariant forall key :: key in Keys(v.members) && Reportable(key) && key !in todo ==>
                  !refused(Get(v.members, key), elem)
      decreases todo
    {
      ghost var least := LeastOf(todo);
      var key :| key in todo && forall other :: other in todo ==> LexLeq(key, other);
      if Reportable(key) && refused(Get(v.members, key), elem) {
        forall other | other in Keys(v.members) && Before(other, key) ensures other !in todo {
          LexAntisymmetric(key, other);
        }
        var rest := Locate(types, Get(v.members, key), elem, refused);
        ExtendPath(types, v, t, Member(key), Get(v.members, key), elem, rest, refused);
        return [Member(key)] + rest;
      }
      todo := todo - {key};
    }
    return [];
  }

  lemma {:induction false} LexAntisymmetric(a: string, b: string)
    ensures LexLeq(a, b) && LexLeq(b, a) ==> a == b
  {
    if a != "" && b != "" && a[0] == b[0] {
      LexAntisymmetric(a[1..], b[1..]);
      assert a == [a[0]] + a[1..] && b == [b[0]] + b[1..];
    }
  }

  lemma {:induction false} LexTotal(a: string, b: string)
    ensures LexLeq(a, b) || LexLeq(b, a)
  {
    if a != "" && b != "" && a[0] == b[0] { LexTotal(a[1..], b[1..]); }
  }

  lemma {:induction false} LexTransitive(a: string, b: string, c: string)
    requires LexLeq(a, b) && LexLeq(b, c)
    ensures LexLeq(a, c)
  {
    if a != "" && a[0] == b[0] == c[0] { LexTransitive(a[1..], b[1..], c[1..]); }
  }

  lemma {:induction false} LeastOf(keys: set<string>) returns (least: string)
    requires keys != {}
    ensures IsLeast(least, keys)
    decreases keys
  {
    var some :| some in keys;
    LexTotal(some, some);
    var rest := keys - {some};
    if rest == {} {
      assert keys == {some};
      return some;
    }
    least := LeastOf(rest);
    LexTotal(some, least);
    if LexLeq(some, least) {
      LeastExtends(some, least, rest);
      least := some;
    }
    assert keys == rest + {some};
  }

  lemma LeastExtends(key: string, least: string, keys: set<string>)
    requires LexLeq(key, least) && IsLeast(least, keys)
    ensures forall other :: other in keys ==> LexLeq(key, other)
  {
    forall other | other in keys ensures LexLeq(key, other) { LexTransitive(key, least, other); }
  }

  // ---- Maximality ----

  ghost predicate NoCandidate(types: Types, v: Json, t: TypeId, refused: Refusal)
    requires WellFounded(types)
  {
    forall seg, c, ct :: Step(types, v, t, seg, c, ct) ==> !refused(c, ct)
  }

  predicate FieldPins(types: Types, v: Json, f: Field, rank: nat, c: Json, ct: TypeId)
    requires WellFounded(types) && v.Obj? && (f.anonymous ==> types.rank(f.typ) < rank)
    decreases rank, 0
  {
    match NameOf(types, f)
    case Skipped => false
    case Promoted => Pins(types, v, f.typ, c, ct)
    case Named(name) =>
      var keys := CandidateKeys(types.fold, v.members, name);
      keys != {} && f.typ == ct && forall key :: key in keys ==> Get(v.members, key) == c
  }

  /** Some field has this part as its only candidate, so the search tries it. */
  predicate Pins(types: Types, v: Json, t: TypeId, c: Json, ct: TypeId)
    requires WellFounded(types)
    decreases types.rank(t), 1
  {
    match types.kind(Base(types, t))
    case Struct(fields) =>
      v.Obj? && exists i :: 0 <= i < |fields| && FieldPins(types, v, fields[i], types.rank(Base(types, t)), c, ct)
    case _ => false
  }

  /** A condition on document and type alone: every part of an object is the only
      candidate of some field. Elements and map values are all tried anyway. */
  ghost predicate Decided(types: Types, v: Json, t: TypeId)
    requires WellFounded(types)
  {
    types.kind(Base(types, t)).Struct? ==>
      forall seg, c, ct :: Step(types, v, t, seg, c, ct) ==> Pins(types, v, t, c, ct)
  }

  lemma {:induction false} PinnedIsTried(types: Types, v: Json, t: TypeId, c: Json, ct: TypeId, refused: Refusal)
    requires WellFounded(types) && Stops(types, v, t, refused) && Pins(types, v, t, c, ct)
    ensures !refused(c, ct)
    decreases types.rank(t)
  {
    var base := Base(types, t);
    var fields := types.kind(base).fields;
    var i :| 0 <= i < |fields| && FieldPins(types, v, fields[i], types.rank(base), c, ct);
    assert FieldStops(types, v, fields[i], types.rank(base), refused);
    if NameOf(types, fields[i]).Promoted? { PinnedIsTried(types, v, fields[i].typ, c, ct, refused); }
  }

  function Only(c: Json, ct: TypeId): Refusal {
    (d, dt) => d == c && dt == ct
  }

  /** A part that no field pins is skipped by some search for it. */
  lemma {:induction false} UnpinnedIsSkipped(types: Types, v: Json, t: TypeId, c: Json, ct: TypeId)
    requires WellFounded(types) && !Pins(types, v, t, c, ct) && types.kind(Base(types, t)).Struct?
    ensures Stops(types, v, t, Only(c, ct))
    decreases types.rank(t)
  {
    var base := Base(types, t);
    var fields := types.kind(base).fields;
    if v.Obj? {
      forall i | 0 <= i < |fields| ensures FieldStops(types, v, fields[i], types.rank(base), Only(c, ct)) {
        assert !FieldPins(types, v, fields[i], types.rank(base), c, ct);
        if NameOf(types, fields[i]).Promoted? {
          BaseOfBase(types, fields[i].typ);
          UnpinnedIsSkipped(types, v, fields[i].typ, c, ct);
        }
      }
    }
  }

  /** A promoted field has a struct behind its pointers. */
  lemma BaseOfBase(types: Types, t: TypeId)
    requires WellFounded(types)
    ensures Base(types, Base(types, t)) == Base(types, t)
  {
  }

  lemma DecidedIsMaximal(types: Types, v: Json, t: TypeId, refused: Refusal)
    requires WellFounded(types) && Decided(types, v, t) && Stops(types, v, t, refused)
    ensures NoCandidate(types, v, t, refused)
  {
    forall seg: Segment, c: Json, ct: TypeId | Step(types, v, t, seg, c, ct) ensures !refused(c, ct) {
      if types.kind(Base(types, t)).Struct? { PinnedIsTried(types, v, t, c, ct, refused); }
    }
  }

  /** Where the search ends no part reproduces the refusal, for every refusal,
      exactly when document and type decide every candidate. */
  lemma MaximalExactly(types: Types, v: Json, t: TypeId)
    requires WellFounded(types)
    ensures (forall refused: Refusal :: Stops(types, v, t, refused) ==> NoCandidate(types, v, t, refused))
            <==> Decided(types, v, t)
  {
    if Decided(types, v, t) {
      forall refused: Refusal | Stops(types, v, t, refused) ensures NoCandidate(types, v, t, refused) {
        DecidedIsMaximal(types, v, t, refused);
      }
    } else {
      var seg, c, ct :| Step(types, v, t, seg, c, ct) && !Pins(types, v, t, c, ct);
      UnpinnedIsSkipped(types, v, t, c, ct);
      assert Stops(types, v, t, Only(c, ct)) && !NoCandidate(types, v, t, Only(c, ct));
    }
  }

  predicate FieldAmbiguous(types: Types, v: Json, f: Field, rank: nat)
    requires WellFounded(types) && v.Obj? && (f.anonymous ==> types.rank(f.typ) < rank)
    decreases rank, 0
  {
    match NameOf(types, f)
    case Skipped => false
    case Promoted => Ambiguous(types, v, f.typ)
    case Named(name) =>
      exists key, other ::
        && key in CandidateKeys(types.fold, v.members, name) && other in CandidateKeys(types.fold, v.members, name)
        && key != other
  }

  /** Two keys of the object fold to one field name that is not itself a key. */
  predicate Ambiguous(types: Types, v: Json, t: TypeId)
    requires WellFounded(types)
    decreases types.rank(t), 1
  {
    match types.kind(Base(types, t))
    case Struct(fields) =>
      v.Obj? && exists i :: 0 <= i < |fields| && FieldAmbiguous(types, v, fields[i], types.rank(Base(types, t)))
    case _ => false
  }

  lemma {:induction false} UnambiguousPins(types: Types, v: Json, t: TypeId, seg: Segment, c: Json, ct: TypeId)
    requires WellFounded(types) && !Ambiguous(types, v, t) && types.kind(Base(types, t)).Struct?
    requires Step(types, v, t, seg, c, ct)
    ensures Pins(types, v, t, c, ct)
    decreases types.rank(t)
  {
    var base := Base(types, t);
    var fields := types.kind(base).fields;
    var i :| 0 <= i < |fields| && FieldStep(types, v, fields[i], types.rank(base), seg, c, ct);
    assert !FieldAmbiguous(types, v, fields[i], types.rank(base));
    if NameOf(types, fields[i]).Promoted? { UnambiguousPins(types, v, fields[i].typ, seg, c, ct); }
    assert FieldPins(types, v, fields[i], types.rank(base), c, ct);
  }

  /** So only keys that fold together can hide a refused part. */
  lemma UnambiguousIsMaximal(types: Types, v: Json, t: TypeId, refused: Refusal)
    requires WellFounded(types) && Stops(types, v, t, refused) && !Ambiguous(types, v, t)
    ensures NoCandidate(types, v, t, refused)
  {
    forall seg: Segment, c: Json, ct: TypeId | types.kind(Base(types, t)).Struct? && Step(types, v, t, seg, c, ct)
      ensures Pins(types, v, t, c, ct)
    {
      UnambiguousPins(types, v, t, seg, c, ct);
    }
    DecidedIsMaximal(types, v, t, refused);
  }

  /** `u`, decoded as `ut`, is where the path leads. */
  ghost predicate LeadsTo(types: Types, v: Json, t: TypeId, path: seq<Segment>, u: Json, ut: TypeId)
    requires WellFounded(types)
    decreases |path|
  {
    if path == [] then u == v && ut == t
    else exists c, ct :: Step(types, v, t, path[0], c, ct) && LeadsTo(types, c, ct, path[1..], u, ut)
  }

  /** The end of a returned path: no part of it reproduces the refusal, unless keys
      that fold together hide one. */
  lemma {:induction false} PathEndIsMaximal(types: Types, v: Json, t: TypeId, path: seq<Segment>, refused: Refusal)
    returns (u: Json, ut: TypeId)
    requires WellFounded(types) && Located(types, v, t, path, refused)
    ensures LeadsTo(types, v, t, path, u, ut) && Stops(types, u, ut, refused)
    ensures !Ambiguous(types, u, ut) ==> NoCandidate(types, u, ut, refused)
    ensures path != [] ==> refused(u, ut)
    decreases |path|
  {
    if path == [] {
      u, ut := v, t;
      if !Ambiguous(types, u, ut) { UnambiguousIsMaximal(types, u, ut, refused); }
    } else {
      var c, ct :|
        Chosen(types, v, t, path[0], c, ct, refused) && refused(c, ct) && Located(types, c, ct, path[1..], refused);
      ChosenIsStep(types, v, t, path[0], c, ct, refused);
      u, ut := PathEndIsMaximal(types, c, ct, path[1..], refused);
    }
  }

  /** A document on which the search may end at the object although a member of it
      reproduces the refusal. */
  lemma FoldedKeysHideRefusal(types: Types)
    requires WellFounded(types) && FoldsLetters(types.fold)
    requires types.kind(0) == Struct([Field("Name", "name", false, true, 1)]) && types.kind(1) == Scalar
    ensures var v := Obj([("NAME", Atom("1")), ("Name", Atom("2"))]);
            && Ambiguous(types, v, 0) && Located(types, v, 0, [], Only(Atom("1"), 1))
            && !NoCandidate(types, v, 0, Only(Atom("1"), 1))
  {
    var v := Obj([("NAME", Atom("1")), ("Name", Atom("2"))]);
    var f := Field("Name", "name", false, true, 1);
    Uncut("name");
    TwoFoldedKeys(types.fold, v.members);
    assert NameOf(types, f) == Named("name");
    FoldedStruct(types, v, f);
  }

  lemma FoldedStruct(types: Types, v: Json, f: Field)
    requires WellFounded(types) && types.kind(0) == Struct([f])
    requires v.Obj? && !f.anonymous && f.typ == 1 && NameOf(types, f) == Named("name")
    requires CandidateKeys(types.fold, v.members, "name") == {"NAME", "Name"}
    requires Get(v.members, "Name") == Atom("2") && Get(v.members, "NAME") == Atom("1")
    ensures Ambiguous(types, v, 0) && Located(types, v, 0, [], Only(Atom("1"), 1))
    ensures !NoCandidate(types, v, 0, Only(Atom("1"), 1))
  {
    FoldedField(types, v, f, types.rank(Base(types, 0)));
    assert types.kind(Base(types, 0)).fields[0] == f;
    assert Step(types, v, 0, Member("NAME"), Atom("1"), 1);
  }

  lemma FoldedField(types: Types, v: Json, f: Field, rank: nat)
    requires WellFounded(types) && v.Obj? && !f.anonymous && f.typ == 1 && NameOf(types, f) == Named("name")
    requires CandidateKeys(types.fold, v.members, "name") == {"NAME", "Name"}
    requires Get(v.members, "Name") == Atom("2") && Get(v.members, "NAME") == Atom("1")
    ensures FieldAmbiguous(types, v, f, rank) && FieldStops(types, v, f, rank, Only(Atom("1"), 1))
    ensures FieldStep(types, v, f, rank, Member("NAME"), Atom("1"), 1)
  {
    assert "NAME" in CandidateKeys(types.fold, v.members, "name");
    assert "Name" in CandidateKeys(types.fold, v.members, "name");
    assert "NAME" != "Name" by { assert "NAME"[1] == 'A' && "Name"[1] == 'a'; }
  }

  lemma TwoFoldedKeys(fold: Folding, members: seq<(string, Json)>)
    requires FoldsLetters(fold) && members == [("NAME", Atom("1")), ("Name", Atom("2"))]
    ensures CandidateKeys(fold, members, "name") == {"NAME", "Name"}
    ensures Get(members, "Name") == Atom("2") && Get(members, "NAME") == Atom("1")
  {
    assert members[0].0 == "NAME" && members[1].0 == "Name";
    assert Keys(members) == {"NAME", "Name"};
    assert "NAME" != "name" && "Name" != "name" by { assert "NAME"[0] == 'N' && "Name"[0] == 'N' && "name"[0] == 'n'; }
    assert "NAME" != "Name" by { assert "NAME"[1] == 'A' && "Name"[1] == 'a'; }
    LettersFold(fold);
    assert members[..1] == [("NAME", Atom("1"))];
    assert Keys(members[..1]) == {"NAME"} by { assert members[..1][0].0 == "NAME"; }
  }

  lemma LettersFold(fold: Folding)
    requires FoldsLetters(fold)
    ensures Fold(fold, "NAME") == Fold(fold, "name") == Fold(fold, "Name")
  {
    assert fold('N') == fold('n') && fold('A') == fold('a') && fold('M') == fold('m') && fold('E') == fold('e') by {
      assert 'N' - 'A' + 'a' == 'n' && 'A' - 'A' + 'a' == 'a' && 'M' - 'A' + 'a' == 'm' && 'E' - 'A' + 'a' == 'e';
    }
  }

  lemma {:induction false} Uncut(tag: string)
    requires ',' !in tag
    ensures BeforeComma(tag) == tag
  {
    if tag != "" { Uncut(tag[1..]); }
  }

  // ---- Problem details ----

  datatype Refused = Refused(field: string, reason: string)

  datatype Problem = Leaf(refused: Refused) | Joined(problems: seq<Problem>) | Wrapped(inner: Problem) | Other

  const MAXIMUM_DETAILS: nat := 32

  /** Every named input of an error tree, depth first. */
  function AllRefused(problem: Problem): seq<Refused>
    decreases problem, 1, 0
  {
    match problem
    case Leaf(refused) => [refused]
    case Joined(problems) => AllRefusedOf(problem, |problems|)
    case Wrapped(inner) => AllRefused(inner)
    case Other => []
  }

  function AllRefusedOf(problem: Problem, n: nat): seq<Refused>
    requires problem.Joined? && n <= |problem.problems|
    decreases problem, 0, n
  {
    if n == 0 then [] else AllRefusedOf(problem, n - 1) + AllRefused(problem.problems[n - 1])
  }

  function Bounded<T>(s: seq<T>): seq<T> {
    if |s| <= MAXIMUM_DETAILS then s else s[..MAXIMUM_DETAILS]
  }

  /** The recursive closure that stops visiting once the list is full; `fields` is
      the list it has built so far. */
  method Collect(problem: Problem, fields: seq<Refused>) returns (all: seq<Refused>)
    requires |fields| <= MAXIMUM_DETAILS
    ensures all == Bounded(fields + AllRefused(problem))
    decreases problem, 1
  {
    all := fields;
    if |fields| == MAXIMUM_DETAILS { return; }
    match problem
    case Leaf(refused) => all := all + [refused];
    case Joined(problems) =>
      for i := 0 to |problems|
        invariant all == Bounded(fields + AllRefusedOf(problem, i))
      {
        ghost var seen := fields + AllRefusedOf(problem, i);
        all := Collect(problems[i], all);
        assert fields + AllRefusedOf(problem, i + 1) == seen + AllRefused(problems[i]);
      }
    case Wrapped(inner) => all := Collect(inner, all);
    case Other =>
  }
}
