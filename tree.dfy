/** The hierarchical store (the realtime database, and the document store used
    the same way apart from its merging `set`, `MergeDoc`): one JSON tree
    addressed by paths of keys. Writing `null`
    removes a node, and a node left without children no longer exists, so a
    read below a removed node sees nothing. */
module Tree {
  import opened JsValue

  type Path = seq<string>

  /** `snapshot.exists()`: the store keeps neither nulls nor empty objects. */
  predicate Exists(v: Json) {
    !v.Null? && !(v.Obj? && v.fields == [])
  }

  /** An array holding an array somewhere inside it, directly or through
      objects, which the document store refuses to save. */
  predicate NestsArray(v: Json)
    decreases v
  {
    match v
    case Arr(items) => exists i :: 0 <= i < |items| && (items[i].Arr? || NestsArray(items[i]))
    case Obj(fs) => exists i :: 0 <= i < |fs| && NestsArray(fs[i].val)
    case _ => false
  }

  /** `ref(p).get().val()`, with `Null` for a node that does not exist. */
  function GetPath(j: Json, p: Path): Json
    decreases |p|
  {
    if p == [] then j else GetPath(Get(j, p[0]), p[1..])
  }

  /** Replaces the child `k` by `c`, dropping it when `c` does not exist. */
  function SetChild(fs: seq<Field>, k: string, c: Json): seq<Field> {
    if Exists(c) then Put(fs, k, c) else Delete(fs, k)
  }

  /** `ref(p).set(v)`; `ref(p).remove()` is `SetPath(j, p, Null)`. A value on the
      way that is not an object is replaced by one. */
  function SetPath(j: Json, p: Path, v: Json): Json
    decreases |p|
  {
    if p == [] then v
    else Obj(SetChild(FieldsOf(j), p[0], SetPath(Get(j, p[0]), p[1..], v)))
  }

  /** Two paths that part ways: neither is a prefix of the other. */
  predicate Diverge(p: Path, q: Path)
    decreases |p|
  {
    p != [] && q != [] && (p[0] != q[0] || Diverge(p[1..], q[1..]))
  }

  lemma {:induction false} SetChildGet(fs: seq<Field>, k: string, c: Json, k': string)
    ensures Get(Obj(SetChild(fs, k, c)), k') ==
            if k' == k then (if Exists(c) then c else Null) else Get(Obj(fs), k')
  {
  }

  /** Reading a path in two steps. */
  lemma {:induction false} GetPathAppend(j: Json, p: Path, q: Path)
    ensures GetPath(j, p + q) == GetPath(GetPath(j, p), q)
    decreases |p|
  {
    if p == [] {
      assert p + q == q;
    } else {
      assert (p + q)[0] == p[0] && (p + q)[1..] == p[1..] + q;
      GetPathAppend(Get(j, p[0]), p[1..], q);
    }
  }

  /** Below a node without children there is nothing. */
  lemma {:induction false} GetPathAbsent(j: Json, p: Path)
    requires p != [] && FieldsOf(j) == []
    ensures GetPath(j, p) == Null
    decreases |p|
  {
    assert Get(j, p[0]) == Null;
    if p[1..] != [] {
      GetPathAbsent(Null, p[1..]);
    }
  }

  lemma {:induction false} GetPathNotExists(j: Json, p: Path)
    requires p != [] && !Exists(j)
    ensures GetPath(j, p) == Null
  {
    GetPathAbsent(j, p);
  }

  /** A read of the path just written sees the value written (nothing, for a removal). */
  lemma {:induction false} ReadBack(j: Json, p: Path, v: Json)
    requires p != []
    ensures GetPath(SetPath(j, p, v), p) == if Exists(v) then v else Null
    decreases |p|
  {
    var c := SetPath(Get(j, p[0]), p[1..], v);
    SetChildGet(FieldsOf(j), p[0], c, p[0]);
    if p[1..] != [] {
      ReadBack(Get(j, p[0]), p[1..], v);
      if !Exists(c) {
        GetPathNotExists(c, p[1..]);
        GetPathAbsent(Null, p[1..]);
      }
    }
  }

  /** A write leaves every path that parts ways with it as it was. */
  lemma {:induction false} ReadOther(j: Json, p: Path, v: Json, q: Path)
    requires Diverge(p, q)
    ensures GetPath(SetPath(j, p, v), q) == GetPath(j, q)
    decreases |p|
  {
    var c := SetPath(Get(j, p[0]), p[1..], v);
    SetChildGet(FieldsOf(j), p[0], c, q[0]);
    if p[0] == q[0] {
      ReadOther(Get(j, p[0]), p[1..], v, q[1..]);
      if !Exists(c) {
        GetPathNotExists(c, q[1..]);
        GetPathAbsent(Null, q[1..]);
      }
    }
  }

  /** Read at an ancestor of the written path, a write is the same write on that subtree. */
  lemma {:induction false} ReadSubtree(j: Json, base: Path, s: Path, v: Json)
    requires Exists(SetPath(GetPath(j, base), s, v))
    ensures GetPath(SetPath(j, base + s, v), base) == SetPath(GetPath(j, base), s, v)
    decreases |base|
  {
    if base != [] {
      var k, rest := base[0], base[1..];
      assert (base + s)[0] == k && (base + s)[1..] == rest + s;
      var child := Get(j, k);
      var c := SetPath(child, rest + s, v);
      var w := SetPath(j, base + s, v);
      assert w == Obj(SetChild(FieldsOf(j), k, c));
      var sub := GetPath(child, rest);
      assert GetPath(j, base) == sub;
      ReadSubtree(child, rest, s, v);
      assert GetPath(c, rest) == SetPath(sub, s, v);
      assert Exists(c) by {
        if rest != [] {
          ExistsBelow(c, rest);
        }
      }
      SetChildGet(FieldsOf(j), k, c, k);
      assert Get(w, k) == c;
      assert GetPath(w, base) == GetPath(c, rest);
    } else {
      assert base + s == s;
    }
  }

  /** Whatever exists below a node makes the node exist. */
  lemma {:induction false} ExistsBelow(j: Json, p: Path)
    requires p != []
    ensures Exists(GetPath(j, p)) ==> Exists(j)
  {
    if !Exists(j) {
      GetPathNotExists(j, p);
    }
  }

  lemma {:induction false} DivergeAppend(p: Path, q: Path, r: Path, r': Path)
    requires Diverge(p, q)
    ensures Diverge(p + r, q + r')
    decreases |p|
  {
    assert (p + r)[0] == p[0] && (q + r')[0] == q[0];
    if p[0] == q[0] {
      assert (p + r)[1..] == p[1..] + r && (q + r')[1..] == q[1..] + r';
      DivergeAppend(p[1..], q[1..], r, r');
    }
  }

  lemma {:induction false} DivergeSymmetric(p: Path, q: Path)
    requires Diverge(p, q)
    ensures Diverge(q, p)
    decreases |p|
  {
    if p[0] == q[0] {
      DivergeSymmetric(p[1..], q[1..]);
    }
  }

  /** Paths that share a prefix and then differ in the next key part ways. */
  lemma {:induction false} DivergeSiblings(base: Path, k: string, k': string, r: Path, r': Path)
    requires k != k'
    ensures Diverge(base + [k] + r, base + [k'] + r')
    decreases |base|
  {
    if base == [] {
      assert ([k] + r)[0] == k && ([k'] + r')[0] == k';
    } else {
      assert (base + [k] + r)[1..] == base[1..] + [k] + r;
      assert (base + [k'] + r')[1..] == base[1..] + [k'] + r';
      DivergeSiblings(base[1..], k, k', r, r');
    }
  }

  // ---------------------------------------------------------------------------
  // Multi-path updates
  // ---------------------------------------------------------------------------

  /** One entry of an `update` call: a path relative to the updated node and its new value. */
  datatype Write = Write(rel: Path, val: Json)

  /** `ref(base).update(writes)`: each relative path is set in turn. */
  function ApplyWrites(j: Json, base: Path, ws: seq<Write>): Json
    decreases |ws|
  {
    if ws == [] then j else ApplyWrites(SetPath(j, base + ws[0].rel, ws[0].val), base, ws[1..])
  }

  /** The writes of `ref(base).update(obj)` for a plain object: one child per field. */
  function ToWrites(fs: seq<Field>): (ws: seq<Write>)
    ensures |ws| == |fs|
    ensures forall i :: 0 <= i < |fs| ==> ws[i] == Write([fs[i].key], fs[i].val)
  {
    if fs == [] then [] else [Write([fs[0].key], fs[0].val)] + ToWrites(fs[1..])
  }

  /** An update leaves every path that parts ways with all of its writes as it was. */
  lemma {:induction false} UpdateOther(j: Json, base: Path, ws: seq<Write>, q: Path)
    requires forall i :: 0 <= i < |ws| ==> Diverge(base + ws[i].rel, q)
    ensures GetPath(ApplyWrites(j, base, ws), q) == GetPath(j, q)
    decreases |ws|
  {
    if ws != [] {
      ReadOther(j, base + ws[0].rel, ws[0].val, q);
      UpdateOther(SetPath(j, base + ws[0].rel, ws[0].val), base, ws[1..], q);
    }
  }

  /** `ref(base).update(obj)` with values that exist merges `obj` into the node:
      the fields of `obj` are assigned, the node's other children are kept. */
  lemma {:induction false} UpdateMerges(j: Json, base: Path, fs: seq<Field>)
    requires fs != []
    requires forall i :: 0 <= i < |fs| ==> Exists(fs[i].val)
    ensures GetPath(ApplyWrites(j, base, ToWrites(fs)), base) == Obj(Merge(FieldsOf(GetPath(j, base)), fs))
    decreases |fs|
  {
    var node := GetPath(j, base);
    var f := fs[0];
    var node' := Obj(Put(FieldsOf(node), f.key, f.val));
    assert SetPath(node, [f.key], f.val) == node';
    assert Lookup(node'.fields, f.key).Some?;
    ReadSubtree(j, base, [f.key], f.val);
    var j' := SetPath(j, base + [f.key], f.val);
    assert ToWrites(fs)[1..] == ToWrites(fs[1..]);
    if |fs| > 1 {
      UpdateMerges(j', base, fs[1..]);
    }
  }

  /** `doc(p).set(obj, { merge: true })` in the document store: the fields of
      `obj` replace the document's own, `null` and empty-map values included,
      and the document's other fields are kept. */
  function MergeDoc(j: Json, p: Path, fs: seq<Field>): Json {
    SetPath(j, p, Obj(Merge(FieldsOf(GetPath(j, p)), fs)))
  }

  /** After a merging `set` with at least one field, the document reads as the
      merge, and every path that parts ways with it is unchanged. */
  lemma {:induction false} MergeDocReads(j: Json, p: Path, fs: seq<Field>, q: Path)
    requires p != [] && fs != []
    ensures GetPath(MergeDoc(j, p, fs), p) == Obj(Merge(FieldsOf(GetPath(j, p)), fs))
    ensures Diverge(p, q) ==> GetPath(MergeDoc(j, p, fs), q) == GetPath(j, q)
  {
    var r := Merge(FieldsOf(GetPath(j, p)), fs);
    assert Lookup(fs, fs[0].key).Some?;
    assert Lookup(r, fs[0].key).Some?;
    ReadBack(j, p, Obj(r));
    if Diverge(p, q) {
      ReadOther(j, p, Obj(r), q);
    }
  }

  // ---------------------------------------------------------------------------
  // The store as a mutable object
  // ---------------------------------------------------------------------------

  class Db {
    var root: Json

    constructor (initial: Json)
      ensures root == initial
    {
      root := initial;
    }

    /** `ref(p).get()`. */
    method Read(p: Path) returns (v: Json)
      ensures v == GetPath(root, p)
    {
      v := GetPath(root, p);
    }

    /** `ref(p).set(v)`. */
    method Write(p: Path, v: Json)
      modifies this
      ensures root == SetPath(old(root), p, v)
    {
      root := SetPath(root, p, v);
    }

    /** `ref(p).remove()`. */
    method Remove(p: Path)
      modifies this
      ensures root == SetPath(old(root), p, Null)
    {
      root := SetPath(root, p, Null);
    }

    /** `ref(p).update(...)` with (possibly multi-key) relative paths. */
    method Update(p: Path, ws: seq<Write>)
      modifies this
      ensures root == ApplyWrites(old(root), p, ws)
    {
      root := ApplyWrites(root, p, ws);
    }

    /** The document store's `doc(p).set(obj, { merge: true })`. */
    method MergeSet(p: Path, fs: seq<Field>)
      modifies this
      ensures root == MergeDoc(old(root), p, fs)
    {
      root := MergeDoc(root, p, fs);
    }
  }
}
