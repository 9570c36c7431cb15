/** The Compose subject (internal/deployconfig/compose.go): one digest over the
    project and every selected file, each field closed by a zero byte. The digest
    is injective, so what matters is its preimage. */
module ComposeSubject {
  import opened Outcome

  type Bytes = seq<nat>

  const PROJECT_LABEL: Bytes :=
    [0x63, 0x6f, 0x6d, 0x70, 0x6f, 0x73, 0x65, 0x5f, 0x70,
     0x72, 0x6f, 0x6a, 0x65, 0x63, 0x74, 0x5f, 0x6e, 0x61, 0x6d, 0x65]

  datatype Asset = Asset(name: Bytes, content: Bytes)

  predicate ZeroFree(field: Bytes) {
    0 !in field
  }

  function Encode(fields: seq<Bytes>): Bytes {
    if fields == [] then [] else Encode(fields[..|fields| - 1]) + fields[|fields| - 1] + [0]
  }

  /** The fields of a subject, in the order they are hashed. */
  function Fields(project: Bytes, assets: seq<Asset>): seq<Bytes> {
    if assets == [] then [PROJECT_LABEL, project]
    else var last := assets[|assets| - 1]; Fields(project, assets[..|assets| - 1]) + [last.name, last.content]
  }

  lemma {:induction false} EncodeAppends(a: seq<Bytes>, b: seq<Bytes>)
    ensures Encode(a + b) == Encode(a) + Encode(b)
  {
    if b == [] {
      assert a + b == a;
    } else {
      EncodeAppends(a, b[..|b| - 1]);
      assert (a + b)[..|a + b| - 1] == a + b[..|b| - 1];
    }
  }

  lemma EncodePair(x: Bytes, y: Bytes)
    ensures Encode([x, y]) == x + [0] + y + [0]
  {
    assert [x, y][..1] == [x] && [x][..0] == [];
    assert Encode([x]) == Encode([]) + x + [0] == x + [0];
  }

  /** Hashes the project, the environment and the selected files piece by piece;
      `read` is what reading each file gave. */
  method WriteSubject(project: Bytes, names: seq<Bytes>, read: seq<Option<Bytes>>)
    returns (preimage: Option<Bytes>, ghost assets: seq<Asset>)
    requires |names| == |read|
    ensures preimage.None? <==> exists i :: 0 <= i < |read| && read[i].None?
    ensures preimage.Some? ==>
              && |assets| == |names| && preimage.value == Encode(Fields(project, assets))
              && forall i :: 0 <= i < |names| ==> assets[i].name == names[i] && read[i] == Some(assets[i].content)
  {
    var hash := PROJECT_LABEL + [0] + project + [0];
    EncodePair(PROJECT_LABEL, project);
    assets := [];
    for i := 0 to |names|
      invariant hash == Encode(Fields(project, assets)) && |assets| == i
      invariant forall j :: 0 <= j < i ==> assets[j].name == names[j] && read[j] == Some(assets[j].content)
    {
      if read[i].None? { return None, []; }
      var content := read[i].value;
      EncodeAppends(Fields(project, assets), [names[i], content]);
      EncodePair(names[i], content);
      hash := hash + names[i] + [0] + content + [0];
      ghost var grown := assets + [Asset(names[i], content)];
      assert grown[..|grown| - 1] == assets;
      assets := grown;
    }
    return Some(hash), assets;
  }

  // ---- Injectivity ----

  lemma ZeroInside(a: Bytes, x: Bytes, b: Bytes, y: Bytes)
    requires a + x == b + y && (b == [] || b[|b| - 1] == 0)
    ensures |a| < |b| ==> 0 in x
  {
    if |a| < |b| { assert x[|b| - 1 - |a|] == (a + x)[|b| - 1] == (b + y)[|b| - 1]; }
  }

  /** The last field is what stands after the last but one zero. */
  lemma LastField(a: Bytes, x: Bytes, b: Bytes, y: Bytes)
    requires ZeroFree(x) && ZeroFree(y) && a + x + [0] == b + y + [0]
    requires (a == [] || a[|a| - 1] == 0) && (b == [] || b[|b| - 1] == 0)
    ensures a == b && x == y
  {
    assert a + x == (a + x + [0])[..|a + x|] == (b + y + [0])[..|b + y|] == b + y;
    ZeroInside(a, x, b, y);
    ZeroInside(b, y, a, x);
    assert a == (a + x)[..|a|] && b == (b + y)[..|b|];
    assert x == (a + x)[|a|..] && y == (b + y)[|b|..];
  }

  lemma EncodeEnds(fields: seq<Bytes>)
    ensures Encode(fields) == [] <==> fields == []
    ensures fields != [] ==> Encode(fields)[|Encode(fields)| - 1] == 0
  {
  }

  lemma {:induction false} EncodeInjective(a: seq<Bytes>, b: seq<Bytes>)
    requires (forall x :: x in a ==> ZeroFree(x)) && (forall x :: x in b ==> ZeroFree(x)) && Encode(a) == Encode(b)
    ensures a == b
  {
    EncodeEnds(a);
    EncodeEnds(b);
    if a != [] {
      var a', b' := a[..|a| - 1], b[..|b| - 1];
      EncodeEnds(a');
      EncodeEnds(b');
      LastField(Encode(a'), a[|a| - 1], Encode(b'), b[|b| - 1]);
      EncodeInjective(a', b');
      assert a == a' + [a[|a| - 1]] && b == b' + [b[|b| - 1]];
    }
  }

  lemma {:induction false} FieldsInjective(p: Bytes, a: seq<Asset>, q: Bytes, b: seq<Asset>)
    requires Fields(p, a) == Fields(q, b)
    ensures p == q && a == b
  {
    FieldsLength(p, a);
    FieldsLength(q, b);
    if a == [] {
      assert Fields(p, a)[1] == p && Fields(q, b)[1] == q;
    } else {
      var f, n := Fields(p, a), |Fields(p, a)|;
      var x, y := a[|a| - 1], b[|b| - 1];
      assert f[n - 2] == x.name && f[n - 1] == x.content && f[n - 2] == y.name && f[n - 1] == y.content;
      assert f[..n - 2] == Fields(p, a[..|a| - 1]) && f[..n - 2] == Fields(q, b[..|b| - 1]);
      FieldsInjective(p, a[..|a| - 1], q, b[..|b| - 1]);
      assert a == a[..|a| - 1] + [x] && b == b[..|b| - 1] + [y];
    }
  }

  lemma {:induction false} FieldsLength(p: Bytes, a: seq<Asset>)
    ensures |Fields(p, a)| == 2 + 2 * |a|
  {
    if a != [] { FieldsLength(p, a[..|a| - 1]); }
  }

  lemma {:induction false} FieldsZeroFree(p: Bytes, a: seq<Asset>)
    requires ZeroFree(p) && forall asset :: asset in a ==> ZeroFree(asset.name) && ZeroFree(asset.content)
    ensures forall x :: x in Fields(p, a) ==> ZeroFree(x)
  {
    if a != [] { FieldsZeroFree(p, a[..|a| - 1]); }
  }

  /** Equal subjects mean the same project and the same files, in the same order
      and with the same contents, however many there are. */
  lemma SubjectIsInjective(p: Bytes, a: seq<Asset>, q: Bytes, b: seq<Asset>)
    requires ZeroFree(p) && forall asset :: asset in a ==> ZeroFree(asset.name) && ZeroFree(asset.content)
    requires ZeroFree(q) && forall asset :: asset in b ==> ZeroFree(asset.name) && ZeroFree(asset.content)
    requires Encode(Fields(p, a)) == Encode(Fields(q, b))
    ensures p == q && a == b
  {
    FieldsZeroFree(p, a);
    FieldsZeroFree(q, b);
    EncodeInjective(Fields(p, a), Fields(q, b));
    FieldsInjective(p, a, q, b);
  }

  /** What one asset adds to the hash. */
  function Body(asset: Asset): Bytes {
    asset.name + [0] + asset.content + [0]
  }

  function Written(assets: seq<Asset>): Bytes {
    if assets == [] then [] else Written(assets[..|assets| - 1]) + Body(assets[|assets| - 1])
  }

  lemma {:induction false} WrittenAfter(p: Bytes, assets: seq<Asset>)
    ensures Encode(Fields(p, assets)) == Encode([PROJECT_LABEL, p]) + Written(assets)
  {
    if assets != [] {
      var front, last := assets[..|assets| - 1], assets[|assets| - 1];
      var head := Encode([PROJECT_LABEL, p]);
      WrittenAfter(p, front);
      EncodeAppends(Fields(p, front), [last.name, last.content]);
      EncodePair(last.name, last.content);
      Regrouped(head, Written(front), Body(last));
    }
  }

  lemma {:induction false} WrittenAppends(a: seq<Asset>, b: seq<Asset>)
    ensures Written(a + b) == Written(a) + Written(b)
  {
    if b == [] {
      assert a + b == a;
    } else {
      var front, body := b[..|b| - 1], Body(b[|b| - 1]);
      WrittenAppends(a, front);
      assert (a + b)[..|a + b| - 1] == a + front && (a + b)[|a + b| - 1] == b[|b| - 1];
      Regrouped(Written(a), Written(front), body);
    }
  }

  lemma Regrouped(x: Bytes, y: Bytes, z: Bytes)
    ensures (x + y) + z == x + (y + z)
  {
  }

  lemma WrittenPair(a: Asset, b: Asset)
    ensures Written([a]) == Body(a) && Written([a, b]) == Body(a) + Body(b)
  {
    assert [a, b][..1] == [a] && [a][..0] == [];
    assert Written([a]) == [] + Body(a);
  }

  lemma BodyAsTwo(name: Bytes, content: Bytes, name': Bytes, content': Bytes)
    ensures Body(Asset(name, content + [0] + name' + [0] + content'))
            == Body(Asset(name, content)) + Body(Asset(name', content'))
  {
  }

  /** A zero byte inside a file breaks this: whatever files come before and after
      it, one file can pass for two. */
  lemma ZeroByteCollides(
    p: Bytes, before: seq<Asset>, name: Bytes, content: Bytes, name': Bytes, content': Bytes, after: seq<Asset>)
    ensures var one := before + [Asset(name, content + [0] + name' + [0] + content')] + after;
            var two := before + [Asset(name, content), Asset(name', content')] + after;
            one != two && Encode(Fields(p, one)) == Encode(Fields(p, two))
  {
    var whole, first, second :=
      Asset(name, content + [0] + name' + [0] + content'), Asset(name, content), Asset(name', content');
    WrittenPair(whole, whole);
    WrittenPair(first, second);
    BodyAsTwo(name, content, name', content');
    WrittenAppends(before, [whole]);
    WrittenAppends(before, [first, second]);
    WrittenAppends(before + [whole], after);
    WrittenAppends(before + [first, second], after);
    WrittenAfter(p, before + [whole] + after);
    WrittenAfter(p, before + [first, second] + after);
  }
}
