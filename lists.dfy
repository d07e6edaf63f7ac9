/** The two list-building loops the controllers share: one entry per field of a
    snapshot (`Object.entries(raw).map(...)` or a `forEach` that always pushes),
    and one entry per field whose value passes a test (a `forEach` that pushes
    conditionally). */
module Lists {
  import opened JsValue

  /** One entry per field, in order. */
  function Entries(fs: seq<Field>, entry: Field -> Json): seq<Json> {
    seq(|fs|, i requires 0 <= i < |fs| => entry(fs[i]))
  }

  /** `Object.entries(raw).forEach(([k, v]) => list.push(entry(k, v)))`. */
  method PushEntries(fs: seq<Field>, entry: Field -> Json) returns (list: seq<Json>)
    ensures list == Entries(fs, entry)
  {
    list := [];
    var i := 0;
    while i < |fs|
      invariant 0 <= i <= |fs|
      invariant |list| == i
      invariant forall k :: 0 <= k < i ==> list[k] == entry(fs[k])
    {
      list := list + [entry(fs[i])];
      i := i + 1;
    }
  }

  /** `mk(f)` for every field `f` of `fs` whose value `keep` accepts, in order. */
  function Select(fs: seq<Field>, keep: Json -> bool, mk: Field -> Json): seq<Json>
    decreases |fs|
  {
    if fs == [] then []
    else
      var f := fs[|fs| - 1];
      Select(fs[..|fs| - 1], keep, mk) + (if keep(f.val) then [mk(f)] else [])
  }

  /** `fs.forEach(f => { if (keep(f.val)) list.push(mk(f)); })` onto a list that may
      already hold entries. */
  method PushSelected(list: seq<Json>, fs: seq<Field>, keep: Json -> bool, mk: Field -> Json) returns (list': seq<Json>)
    ensures list' == list + Select(fs, keep, mk)
  {
    list' := list;
    var j := 0;
    while j < |fs|
      invariant 0 <= j <= |fs|
      invariant list' == list + Select(fs[..j], keep, mk)
    {
      var f := fs[j];
      assert fs[..j + 1][..j] == fs[..j] && fs[..j + 1][j] == f;
      if keep(f.val) {
        list' := list' + [mk(f)];
      }
      j := j + 1;
    }
    assert fs[..|fs|] == fs;
  }

  /** An entry is selected exactly when it is made from an accepted field. */
  lemma {:induction false} SelectMembers(fs: seq<Field>, keep: Json -> bool, mk: Field -> Json, e: Json)
    ensures e in Select(fs, keep, mk) <==> exists j :: 0 <= j < |fs| && keep(fs[j].val) && e == mk(fs[j])
    decreases |fs|
  {
    if fs != [] {
      var init := fs[..|fs| - 1];
      SelectMembers(init, keep, mk, e);
      if exists j :: 0 <= j < |init| && keep(init[j].val) && e == mk(init[j]) {
        var j :| 0 <= j < |init| && keep(init[j].val) && e == mk(init[j]);
        assert fs[j] == init[j];
      }
      if exists j :: 0 <= j < |fs| && keep(fs[j].val) && e == mk(fs[j]) {
        var j :| 0 <= j < |fs| && keep(fs[j].val) && e == mk(fs[j]);
        if j < |init| {
          assert init[j] == fs[j];
        }
      }
    }
  }

  /** The lists `part(f)` of the fields `fs`, concatenated in order. */
  function ConcatParts(fs: seq<Field>, part: Field -> seq<Json>): seq<Json>
    decreases |fs|
  {
    if fs == [] then [] else ConcatParts(fs[..|fs| - 1], part) + part(fs[|fs| - 1])
  }

  /** An element of the concatenation comes from one field's part, and every
      part's elements are in it. */
  lemma {:induction false} ConcatMembers(fs: seq<Field>, part: Field -> seq<Json>, e: Json)
    ensures e in ConcatParts(fs, part) <==> exists i :: 0 <= i < |fs| && e in part(fs[i])
    decreases |fs|
  {
    if fs != [] {
      var init := fs[..|fs| - 1];
      ConcatMembers(init, part, e);
      if exists i :: 0 <= i < |init| && e in part(init[i]) {
        var i :| 0 <= i < |init| && e in part(init[i]);
        assert fs[i] == init[i];
      }
      if exists i :: 0 <= i < |fs| && e in part(fs[i]) {
        var i :| 0 <= i < |fs| && e in part(fs[i]);
        if i < |init| {
          assert init[i] == fs[i];
        }
      }
    }
  }
}
