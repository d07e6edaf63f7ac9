/** JavaScript values as the backend sees them: request bodies, store records and
    socket payloads. JavaScript's `undefined` and a missing key both read as `Null`;
    numbers are integers. An object is an ordered list of fields, so that the
    order of `Object.entries` and the effect of object spread are explicit. */
module JsValue {

  datatype Option<T> = None | Some(value: T) {
    function GetOr(default: T): T {
      if Some? then value else default
    }
  }

  datatype Json =
    | Null
    | Bool(b: bool)
    | Num(n: int)
    | Str(s: string)
    | Arr(items: seq<Json>)
    | Obj(fields: seq<Field>)

  datatype Field = Field(key: string, val: Json)

  // ---------------------------------------------------------------------------
  // Objects as ordered field lists
  // ---------------------------------------------------------------------------

  function Keys(fs: seq<Field>): (ks: seq<string>)
    ensures |ks| == |fs|
    ensures forall i :: 0 <= i < |fs| ==> ks[i] == fs[i].key
  {
    if fs == [] then [] else [fs[0].key] + Keys(fs[1..])
  }

  predicate DistinctKeys(fs: seq<Field>) {
    forall i, j :: 0 <= i < j < |fs| ==> fs[i].key != fs[j].key
  }

  /** The value stored under `k`. An object never holds a key twice; should a
      field list do so, the later field is the one that counts, as with
      repeated assignments to the same property. */
  function Lookup(fs: seq<Field>, k: string): Option<Json> {
    if fs == [] then None
    else
      var rest := Lookup(fs[1..], k);
      if rest.Some? then rest
      else if fs[0].key == k then Some(fs[0].val)
      else None
  }

  function FieldsOf(j: Json): seq<Field> {
    if j.Obj? then j.fields else []
  }

  /** `j.k`, reading `undefined` (here `Null`) when `j` is not an object or has no `k`. */
  function Get(j: Json, k: string): Json {
    Lookup(FieldsOf(j), k).GetOr(Null)
  }

  /** `"k" in j` for an object `j`. */
  predicate Has(j: Json, k: string) {
    Lookup(FieldsOf(j), k).Some?
  }

  lemma {:induction false} LookupAppend(fs: seq<Field>, f: Field, k: string)
    ensures Lookup(fs + [f], k) == if f.key == k then Some(f.val) else Lookup(fs, k)
  {
    if fs != [] {
      assert (fs + [f])[1..] == fs[1..] + [f];
      LookupAppend(fs[1..], f, k);
    }
  }

  /** A key is found exactly when it is one of the keys. */
  lemma {:induction false} LookupKeys(fs: seq<Field>, k: string)
    ensures Lookup(fs, k).None? <==> k !in Keys(fs)
  {
    if fs != [] {
      LookupKeys(fs[1..], k);
      assert Keys(fs) == [fs[0].key] + Keys(fs[1..]);
    }
  }

  /** A value found under `k` is the value of one of the fields named `k`. */
  lemma {:induction false} LookupFound(fs: seq<Field>, k: string)
    requires Lookup(fs, k).Some?
    ensures exists j :: 0 <= j < |fs| && fs[j] == Field(k, Lookup(fs, k).value)
  {
    if Lookup(fs[1..], k).Some? {
      LookupFound(fs[1..], k);
      var j :| 0 <= j < |fs[1..]| && fs[1..][j] == Field(k, Lookup(fs[1..], k).value);
      assert fs[j + 1] == fs[1..][j];
    } else {
      assert fs[0] == Field(k, Lookup(fs, k).value);
    }
  }

  lemma {:induction false} KeysAppend(fs: seq<Field>, f: Field)
    ensures Keys(fs + [f]) == Keys(fs) + [f.key]
  {
  }

  /** Every field under `k` gets the value `v`; the key order is kept. */
  function Replace(fs: seq<Field>, k: string, v: Json): (r: seq<Field>)
    ensures Keys(r) == Keys(fs)
    ensures Lookup(r, k) == if Lookup(fs, k).Some? then Some(v) else None
    ensures forall k' | k' != k :: Lookup(r, k') == Lookup(fs, k')
  {
    if fs == [] then []
    else [if fs[0].key == k then Field(k, v) else fs[0]] + Replace(fs[1..], k, v)
  }

  // Reads of literal objects, field by field; the last field under a key wins.

  lemma {:induction false} Lookup1(a: Field, k: string)
    ensures Lookup([a], k) == if a.key == k then Some(a.val) else None
  {
    assert [a][1..] == [];
  }

  lemma {:induction false} Lookup2(a: Field, b: Field, k: string)
    ensures Lookup([a, b], k) == if b.key == k then Some(b.val) else if a.key == k then Some(a.val) else None
  {
    assert [a, b][1..] == [b];
    Lookup1(b, k);
  }

  lemma {:induction false} Lookup3(a: Field, b: Field, c: Field, k: string)
    ensures Lookup([a, b, c], k) ==
      if c.key == k then Some(c.val) else if b.key == k then Some(b.val)
      else if a.key == k then Some(a.val) else None
  {
    assert [a, b, c][1..] == [b, c];
    Lookup2(b, c, k);
  }

  lemma {:induction false} Lookup4(a: Field, b: Field, c: Field, d: Field, k: string)
    ensures Lookup([a, b, c, d], k) ==
      if d.key == k then Some(d.val) else if c.key == k then Some(c.val)
      else if b.key == k then Some(b.val) else if a.key == k then Some(a.val) else None
  {
    assert [a, b, c, d][1..] == [b, c, d];
    Lookup3(b, c, d, k);
  }

  /** Property assignment `o[k] = v`: an existing key keeps its position, a new one is appended. */
  function Put(fs: seq<Field>, k: string, v: Json): (r: seq<Field>)
    ensures Lookup(r, k) == Some(v)
    ensures forall k' | k' != k :: Lookup(r, k') == Lookup(fs, k')
    ensures Keys(r) == if Lookup(fs, k).Some? then Keys(fs) else Keys(fs) + [k]
  {
    if Lookup(fs, k).Some? then Replace(fs, k, v)
    else
      (forall k' ensures Lookup(fs + [Field(k, v)], k') == if k' == k then Some(v) else Lookup(fs, k') {
         LookupAppend(fs, Field(k, v), k');
       }
       KeysAppend(fs, Field(k, v));
       fs + [Field(k, v)])
  }

  /** `delete o[k]`. */
  function Delete(fs: seq<Field>, k: string): (r: seq<Field>)
    ensures Lookup(r, k) == None
    ensures forall k' | k' != k :: Lookup(r, k') == Lookup(fs, k')
  {
    if fs == [] then []
    else if fs[0].key == k then Delete(fs[1..], k)
    else [fs[0]] + Delete(fs[1..], k)
  }

  /** Object spread `{...base, ...src}`: the fields of `src` are assigned onto `base` in order. */
  function Merge(base: seq<Field>, src: seq<Field>): (r: seq<Field>)
    ensures forall k :: Lookup(r, k) == if Lookup(src, k).Some? then Lookup(src, k) else Lookup(base, k)
    decreases |src|
  {
    if src == [] then base
    else Merge(Put(base, src[0].key, src[0].val), src[1..])
  }

  /** The object literal `{ ...head, ...obj }` with `head` written out field by
      field, such as `{ uid, ...data }`: a field of `obj` wins over a field of
      `head`; spreading a value that is not an object adds nothing. */
  function Spread(head: seq<Field>, obj: Json): Json {
    Obj(Merge(head, FieldsOf(obj)))
  }

  lemma {:induction false} SpreadFields(head: seq<Field>, obj: Json)
    ensures forall k :: Has(Spread(head, obj), k) <==> Has(obj, k) || Lookup(head, k).Some?
    ensures forall k :: Get(Spread(head, obj), k) ==
                        if Has(obj, k) then Get(obj, k) else Lookup(head, k).GetOr(Null)
  {
  }

  /** A key `tail` does not set reads, in `{ head, ...fs, ...tail }`, from `fs` or else from `head`. */
  lemma {:induction false} MergeAroundOther(head: Field, fs: seq<Field>, tail: seq<Field>, k: string)
    requires Lookup(tail, k).None?
    ensures Lookup(Merge(Merge([head], fs), tail), k) ==
      if Lookup(fs, k).Some? then Lookup(fs, k) else if head.key == k then Some(head.val) else None
  {
    Lookup1(head, k);
  }

  /** `{ ...base, a, b, c }` with the three trailing fields written out. */
  lemma {:induction false} MergeLookup3(base: seq<Field>, a: Field, b: Field, c: Field, k: string)
    ensures Lookup(Merge(base, [a, b, c]), k) ==
      if c.key == k then Some(c.val) else if b.key == k then Some(b.val)
      else if a.key == k then Some(a.val) else Lookup(base, k)
  {
    Lookup3(a, b, c, k);
  }

  /** `{ head, ...fs, a, b }` with three distinct keys written out. */
  lemma {:induction false} MergeAround(head: Field, fs: seq<Field>, a: Field, b: Field)
    requires head.key != a.key && head.key != b.key && a.key != b.key
    ensures var m := Merge(Merge([head], fs), [a, b]);
      Lookup(m, a.key) == Some(a.val) && Lookup(m, b.key) == Some(b.val)
      && Lookup(m, head.key) == (if Lookup(fs, head.key).Some? then Lookup(fs, head.key) else Some(head.val))
      && forall k | k != head.key && k != a.key && k != b.key :: Lookup(m, k) == Lookup(fs, k)
  {
    var m1 := Merge([head], fs);
    forall k ensures Lookup([a, b], k) == if b.key == k then Some(b.val) else if a.key == k then Some(a.val) else None {
      Lookup2(a, b, k);
    }
    forall k ensures Lookup([head], k) == if head.key == k then Some(head.val) else None {
      Lookup1(head, k);
    }
  }

  lemma {:induction false} PutDistinct(fs: seq<Field>, k: string, v: Json)
    requires DistinctKeys(fs)
    ensures DistinctKeys(Put(fs, k, v))
  {
    var r := Put(fs, k, v);
    LookupKeys(fs, k);
    forall i, j | 0 <= i < j < |r| ensures r[i].key != r[j].key {
      assert Keys(r)[i] == r[i].key && Keys(r)[j] == r[j].key;
      if k !in Keys(fs) {
        assert Keys(r) == Keys(fs) + [k];
        if j < |fs| {
          assert Keys(fs)[i] == fs[i].key && Keys(fs)[j] == fs[j].key;
        } else {
          assert Keys(r)[j] == k;
          assert Keys(fs)[i] == Keys(r)[i];
        }
      } else {
        assert Keys(r) == Keys(fs);
        assert Keys(fs)[i] == fs[i].key && Keys(fs)[j] == fs[j].key;
      }
    }
  }

  // ---------------------------------------------------------------------------
  // Truthiness and the `||` operator
  // ---------------------------------------------------------------------------

  predicate Truthy(j: Json) {
    match j
    case Null => false
    case Bool(b) => b
    case Num(n) => n != 0
    case Str(s) => s != ""
    case Arr(_) => true
    case Obj(_) => true
  }

  /** `a || b`. */
  function Or(a: Json, b: Json): (r: Json)
    ensures Truthy(r) <==> Truthy(a) || Truthy(b)
    ensures r == a || r == b
  {
    if Truthy(a) then a else b
  }

  /** `a === b` for a value read from the store and one from a request: two
      primitives are compared by value, objects and arrays by identity, and two
      separately decoded objects are never the same object. */
  predicate StrictEq(a: Json, b: Json) {
    !a.Obj? && !a.Arr? && a == b
  }

  // ---------------------------------------------------------------------------
  // Strings: trimming, ASCII case mapping, substring search, conversions
  // ---------------------------------------------------------------------------

  /** The white-space and line-terminator characters removed by `String.prototype.trim`
      (the Latin-1 and common Unicode ones). */
  predicate IsSpace(c: char) {
    c == ' ' || c == '\t' || c == '\n' || c == '\r' || c == '\U{000B}' || c == '\U{000C}'
    || c == '\U{00A0}' || c == '\U{1680}' || ('\U{2000}' <= c <= '\U{200A}')
    || c == '\U{2028}' || c == '\U{2029}' || c == '\U{202F}' || c == '\U{205F}'
    || c == '\U{3000}' || c == '\U{FEFF}'
  }

  /** The number of white-space characters at the start of `s`. */
  function Leading(s: string): (n: nat)
    ensures n <= |s|
    ensures forall k :: 0 <= k < n ==> IsSpace(s[k])
    ensures n == |s| || !IsSpace(s[n])
  {
    if s == [] || !IsSpace(s[0]) then 0 else 1 + Leading(s[1..])
  }

  /** The length of `s` without the white-space characters at its end. */
  function Trailing(s: string): (j: nat)
    ensures j <= |s|
    ensures forall k :: j <= k < |s| ==> IsSpace(s[k])
    ensures j == 0 || !IsSpace(s[j - 1])
  {
    if s == [] || !IsSpace(s[|s| - 1]) then |s| else Trailing(s[..|s| - 1])
  }

  /** `s.trim()`. */
  function Trim(s: string): (t: string)
    ensures t == [] || (!IsSpace(t[0]) && !IsSpace(t[|t| - 1]))
  {
    var a := s[Leading(s)..];
    a[..Trailing(a)]
  }

  lemma {:induction false} TrimNoop(s: string)
    requires s == [] || (!IsSpace(s[0]) && !IsSpace(s[|s| - 1]))
    ensures Trim(s) == s
  {
    assert Leading(s) == 0;
    assert s[0..] == s;
  }

  /** Trimming twice is trimming once. */
  lemma {:induction false} TrimIdempotent(s: string)
    ensures Trim(Trim(s)) == Trim(s)
  {
    TrimNoop(Trim(s));
  }

  function UpperChar(c: char): char {
    if 'a' <= c <= 'z' then (c as int - 32) as char else c
  }

  function LowerChar(c: char): char {
    if 'A' <= c <= 'Z' then (c as int + 32) as char else c
  }

  /** `s.toUpperCase()` on ASCII letters. */
  function Upper(s: string): (r: string)
    ensures |r| == |s|
    ensures forall i :: 0 <= i < |s| ==> r[i] == UpperChar(s[i])
  {
    if s == [] then [] else [UpperChar(s[0])] + Upper(s[1..])
  }

  /** `s.toLowerCase()` on ASCII letters. */
  function Lower(s: string): (r: string)
    ensures |r| == |s|
    ensures forall i :: 0 <= i < |s| ==> r[i] == LowerChar(s[i])
  {
    if s == [] then [] else [LowerChar(s[0])] + Lower(s[1..])
  }

  predicate IsPrefix(p: string, s: string) {
    |p| <= |s| && s[..|p|] == p
  }

  /** `s.includes(p)`. */
  predicate Contains(s: string, p: string)
    decreases |s|
  {
    IsPrefix(p, s) || (s != [] && Contains(s[1..], p))
  }

  function DigitChar(d: nat): char
    requires d < 10
  {
    "0123456789"[d]
  }

  /** The decimal numeral of `n`, as `String(n)` writes it. */
  function NatToString(n: nat): (r: string)
    ensures r != []
    ensures forall i :: 0 <= i < |r| ==> '0' <= r[i] <= '9'
  {
    if n < 10 then [DigitChar(n)] else NatToString(n / 10) + [DigitChar(n % 10)]
  }

  function IntToString(n: int): string {
    if n < 0 then "-" + NatToString(-n) else NatToString(n)
  }

  /** `String(j)` for the values that reach a string conversion here. */
  function JsString(j: Json): string {
    match j
    case Null => "null"
    case Bool(b) => if b then "true" else "false"
    case Num(n) => IntToString(n)
    case Str(s) => s
    case Arr(items) => Join(items)
    case Obj(_) => "[object Object]"
  }

  /** `String(array)`: elements are separated by commas; `null` entries print as empty. */
  function Join(items: seq<Json>): string
    decreases items, 1
  {
    if items == [] then ""
    else
      var head := if items[0].Null? then "" else JsString(items[0]);
      if |items| == 1 then head else head + "," + Join(items[1..])
  }

  predicate AllDigits(s: string) {
    forall i :: 0 <= i < |s| ==> '0' <= s[i] <= '9'
  }

  function DigitsValue(s: string): (n: nat)
    requires AllDigits(s)
  {
    if s == [] then 0 else 10 * DigitsValue(s[..|s| - 1]) + (s[|s| - 1] as int - '0' as int)
  }

  /** `Number(s)` for a string: an empty or blank string is 0, an optionally
      signed decimal integer is its value, anything else is `NaN` (here `None`). */
  function StringToNumber(s: string): Option<int> {
    var t := Trim(s);
    if t == [] then Some(0)
    else if t[0] == '-' && |t| > 1 && AllDigits(t[1..]) then Some(0 - DigitsValue(t[1..]))
    else if t[0] == '+' && |t| > 1 && AllDigits(t[1..]) then Some(DigitsValue(t[1..]))
    else if AllDigits(t) then Some(DigitsValue(t))
    else None
  }

  /** `Number(j)`; `None` stands for `NaN`. */
  function ToNumber(j: Json): Option<int> {
    match j
    case Null => None
    case Bool(b) => Some(if b then 1 else 0)
    case Num(n) => Some(n)
    case Str(s) => StringToNumber(s)
    case Arr(_) => None
    case Obj(_) => None
  }

  lemma {:induction false} NatToStringValue(n: nat)
    ensures DigitsValue(NatToString(n)) == n
  {
    var r := NatToString(n);
    if n >= 10 {
      NatToStringValue(n / 10);
      assert r[..|r| - 1] == NatToString(n / 10);
    }
  }

  /** `Number(String(n)) == n` for every integer: what `String` writes, `Number` reads back. */
  lemma {:induction false} NumberOfString(n: int)
    ensures StringToNumber(IntToString(n)) == Some(n)
  {
    var m: nat := if n < 0 then -n else n;
    var d := NatToString(m);
    var s := IntToString(n);
    assert s[0] == '-' || '0' <= s[0] <= '9';
    assert '0' <= s[|s| - 1] <= '9';
    TrimNoop(s);
    NatToStringValue(m);
    if n < 0 {
      assert s[1..] == d;
      assert !AllDigits(s);
    }
  }
}
