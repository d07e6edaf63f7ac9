/** `Array.prototype.sort` with a descending numeric comparator `(a, b) => key(b) - key(a)`,
    as an insertion sort: stable, like the engine's sort. */
module Sorting {
  import opened JsValue

  predicate SortedDesc(s: seq<Json>, key: Json -> int) {
    forall i, j :: 0 <= i < j < |s| ==> key(s[i]) >= key(s[j])
  }

  /** Puts `x` before the first element whose key is not larger, that is after
      every element with a strictly larger key. */
  function Insert(x: Json, s: seq<Json>, key: Json -> int): (r: seq<Json>)
    requires SortedDesc(s, key)
    ensures SortedDesc(r, key)
    ensures multiset(r) == multiset(s) + multiset{x}
    ensures |r| == |s| + 1
  {
    if s == [] || key(x) >= key(s[0]) then [x] + s
    else
      var t := Insert(x, s[1..], key);
      assert s == [s[0]] + s[1..];
      BelowHead(s, x, t, key);
      [s[0]] + t
  }

  /** Every element of `t`, drawn from `x` and the tail of `s`, ranks no higher than `s[0]`. */
  lemma {:induction false} BelowHead(s: seq<Json>, x: Json, t: seq<Json>, key: Json -> int)
    requires s != [] && SortedDesc(s, key) && key(x) < key(s[0])
    requires multiset(t) == multiset(s[1..]) + multiset{x}
    ensures forall i :: 0 <= i < |t| ==> key(t[i]) <= key(s[0])
  {
    forall i | 0 <= i < |t| ensures key(t[i]) <= key(s[0]) {
      assert t[i] in multiset(t);
      if t[i] != x {
        assert t[i] in multiset(s[1..]);
        assert t[i] in s[1..];
        var j :| 0 <= j < |s[1..]| && s[1..][j] == t[i];
        assert s[j + 1] == t[i];
      }
    }
  }

  /** The list in descending key order; elements with equal keys keep their order. */
  function SortDesc(s: seq<Json>, key: Json -> int): (r: seq<Json>)
    ensures SortedDesc(r, key)
    ensures multiset(r) == multiset(s)
    ensures |r| == |s|
  {
    if s == [] then []
    else
      assert s == [s[0]] + s[1..];
      Insert(s[0], SortDesc(s[1..], key), key)
  }

  /** The first element of the sorted list carries the largest key of the input. */
  lemma {:induction false} SortDescHeadIsMax(s: seq<Json>, key: Json -> int)
    requires s != []
    ensures SortDesc(s, key) != []
    ensures SortDesc(s, key)[0] in s
    ensures forall x :: x in s ==> key(SortDesc(s, key)[0]) >= key(x)
  {
    var r := SortDesc(s, key);
    assert r[0] in multiset(r);
    forall x | x in s ensures key(r[0]) >= key(x) {
      assert x in multiset(r);
      var i :| 0 <= i < |r| && r[i] == x;
      if i > 0 {
        assert key(r[0]) >= key(r[i]);
      }
    }
  }

  /** Elements are exactly those of the input: nothing is added or dropped. */
  lemma {:induction false} SortDescMembers(s: seq<Json>, key: Json -> int)
    ensures forall x :: x in SortDesc(s, key) <==> x in s
  {
    var r := SortDesc(s, key);
    forall x ensures x in r <==> x in s {
      assert x in r <==> x in multiset(r);
      assert x in s <==> x in multiset(s);
    }
  }
}
