/** `controllers/notificationController.js`: the SMS log tree under `smsLogs`
    flattened into one list of messages per device, and the three read routes
    over it, newest first. */
module SmsLogs {
  import opened JsValue
  import opened Tree
  import opened Sorting
  import opened Channel
  import opened Lists

  const SmsRoot: Path := ["smsLogs"]

  /** `v && typeof v === "object"` (arrays are objects too). */
  predicate IsObject(v: Json) {
    v.Obj? || v.Arr?
  }

  /** A record that carries any of the message fields is a message itself;
      any other record groups messages one level further down. */
  predicate LooksLikeSms(v: Json) {
    Has(v, "body") || Has(v, "message") || Has(v, "text") || Has(v, "timestamp") || Has(v, "date")
  }

  /** `{ id, uniqueid: uid, ...v }`. */
  function SmsEntry(id: string, uid: string, v: Json): Json {
    Spread([Field("id", Str(id)), Field("uniqueid", Str(uid))], v)
  }

  /** The key defaults to `id` and the uid to `uniqueid`; the record's own fields,
      those two included, take precedence. */
  lemma {:induction false} SmsEntryFields(id: string, uid: string, v: Json)
    ensures SmsEntry(id, uid, v).Obj?
    ensures Get(SmsEntry(id, uid, v), "id") == if Has(v, "id") then Get(v, "id") else Str(id)
    ensures Get(SmsEntry(id, uid, v), "uniqueid") == if Has(v, "uniqueid") then Get(v, "uniqueid") else Str(uid)
    ensures forall k :: k != "id" && k != "uniqueid" ==> Get(SmsEntry(id, uid, v), k) == Get(v, k)
  {
    var head := [Field("id", Str(id)), Field("uniqueid", Str(uid))];
    SpreadFields(head, v);
    forall k ensures Lookup(head, k) == if k == "uniqueid" then Some(Str(uid)) else if k == "id" then Some(Str(id)) else None {
      Lookup2(head[0], head[1], k);
    }
  }

  /** The messages of a grouping record: one per object-valued child. */
  function GroupEntries(uid: string, gs: seq<Field>): seq<Json> {
    Select(gs, IsObject, (g: Field) => SmsEntry(g.key, uid, g.val))
  }

  /** What one child `k1: v1` of a device's node contributes. */
  function ChildEntries(uid: string, f: Field): seq<Json> {
    if !IsObject(f.val) then []
    else if LooksLikeSms(f.val) then [SmsEntry(f.key, uid, f.val)]
    else GroupEntries(uid, FieldsOf(f.val))
  }

  /** The contributions of the children `fs`, in order. */
  function Flatten(uid: string, fs: seq<Field>): seq<Json> {
    ConcatParts(fs, (f: Field) => ChildEntries(uid, f))
  }

  /** `normalizeSmsListForUid(uid, raw)`. */
  function Normalize(uid: string, raw: Json): (list: seq<Json>)
    ensures !IsObject(raw) ==> list == []
  {
    if IsObject(raw) then Flatten(uid, FieldsOf(raw)) else []
  }

  /** Every message of the flattened list comes from one child, and every
      child's messages are in the list. */
  lemma {:induction false} FlattenMembers(uid: string, fs: seq<Field>, e: Json)
    ensures e in Flatten(uid, fs) <==> exists i :: 0 <= i < |fs| && e in ChildEntries(uid, fs[i])
  {
    ConcatMembers(fs, (f: Field) => ChildEntries(uid, f), e);
  }

  /** The three ways a child contributes: nothing when it is not an object, one
      message when it looks like one, otherwise its object-valued children. */
  lemma {:induction false} ChildEntriesCases(uid: string, f: Field, e: Json)
    ensures !IsObject(f.val) ==> ChildEntries(uid, f) == []
    ensures IsObject(f.val) && LooksLikeSms(f.val) ==> ChildEntries(uid, f) == [SmsEntry(f.key, uid, f.val)]
    ensures IsObject(f.val) && !LooksLikeSms(f.val) ==>
              (e in ChildEntries(uid, f) <==>
               exists j :: 0 <= j < |FieldsOf(f.val)| && IsObject(FieldsOf(f.val)[j].val)
                           && e == SmsEntry(FieldsOf(f.val)[j].key, uid, FieldsOf(f.val)[j].val))
  {
    SelectMembers(FieldsOf(f.val), IsObject, (g: Field) => SmsEntry(g.key, uid, g.val), e);
  }

  /** One more child adds its contribution at the end. */
  lemma {:induction false} FlattenSnoc(uid: string, fs: seq<Field>, i: nat)
    requires i < |fs|
    ensures Flatten(uid, fs[..i + 1]) == Flatten(uid, fs[..i]) + ChildEntries(uid, fs[i])
  {
    assert fs[..i + 1][..i] == fs[..i];
  }

  /** The outer `forEach` callback for one child `k1: v1`: push it as a message,
      or push its object-valued children. */
  method PushChild(list: seq<Json>, uid: string, f: Field) returns (list': seq<Json>)
    ensures list' == list + ChildEntries(uid, f)
  {
    list' := list;
    if IsObject(f.val) {
      if LooksLikeSms(f.val) {
        list' := list' + [SmsEntry(f.key, uid, f.val)];
      } else {
        list' := PushSelected(list', FieldsOf(f.val), IsObject, (g: Field) => SmsEntry(g.key, uid, g.val));
      }
    }
  }

  /** `normalizeSmsListForUid`: the nested `forEach` loops pushing into `list`. */
  method NormalizeList(uid: string, raw: Json) returns (list: seq<Json>)
    ensures list == Normalize(uid, raw)
  {
    list := [];
    if !IsObject(raw) {
      return;
    }
    var fs := FieldsOf(raw);
    var i := 0;
    while i < |fs|
      invariant 0 <= i <= |fs|
      invariant list == Flatten(uid, fs[..i])
    {
      FlattenSnoc(uid, fs, i);
      list := PushChild(list, uid, fs[i]);
      i := i + 1;
    }
    assert fs[..|fs|] == fs;
  }

  // ---------------------------------------------------------------------------
  // Ordering
  // ---------------------------------------------------------------------------

  /** `Number(e.timestamp || e.date || 0)`; a value that is not a number counts as 0. */
  function SmsKey(e: Json): int {
    ToNumber(Or(Or(Get(e, "timestamp"), Get(e, "date")), Num(0))).GetOr(0)
  }

  /** The messages of all devices, device by device. */
  function AllLogs(fs: seq<Field>): seq<Json> {
    ConcatParts(fs, (f: Field) => Normalize(f.key, f.val))
  }

  /** One more device adds its messages at the end. */
  lemma {:induction false} AllLogsSnoc(fs: seq<Field>, i: nat)
    requires i < |fs|
    ensures AllLogs(fs[..i + 1]) == AllLogs(fs[..i]) + Normalize(fs[i].key, fs[i].val)
  {
    assert fs[..i + 1][..i] == fs[..i];
  }

  /** Every message of the combined list is a message of one device's node. */
  lemma {:induction false} AllLogsMembers(fs: seq<Field>, e: Json)
    ensures e in AllLogs(fs) <==> exists i :: 0 <= i < |fs| && e in Normalize(fs[i].key, fs[i].val)
  {
    ConcatMembers(fs, (f: Field) => Normalize(f.key, f.val), e);
  }

  /** The devices under `smsLogs` when it exists (`snap.val() || {}`). */
  function Devices(node: Json): seq<Field> {
    if Exists(node) then FieldsOf(node) else []
  }

  function DataReply(data: Json): Response {
    Response(200, Obj([Field("success", Bool(true)), Field("data", data)]))
  }

  // ---------------------------------------------------------------------------
  // Routes
  // ---------------------------------------------------------------------------

  /** The `forEach` over the devices concatenating each one's messages onto `final`. */
  method ConcatLogs(fs: seq<Field>) returns (final: seq<Json>)
    ensures final == AllLogs(fs)
  {
    final := [];
    var i := 0;
    while i < |fs|
      invariant 0 <= i <= |fs|
      invariant final == AllLogs(fs[..i])
    {
      AllLogsSnoc(fs, i);
      var part := NormalizeList(fs[i].key, fs[i].val);
      final := final + part;
      i := i + 1;
    }
    assert fs[..|fs|] == fs;
  }

  /** `getAllSmsLogs`: every device's messages, concatenated, newest first. */
  method AllSmsLogs(db: Db) returns (resp: Response)
    ensures var all := AllLogs(Devices(GetPath(db.root, SmsRoot)));
      resp == DataReply(Arr(SortDesc(all, SmsKey)))
  {
    var node := db.Read(SmsRoot);
    if !Exists(node) {
      assert AllLogs(Devices(node)) == [];
      assert SortDesc([], SmsKey) == [];
      resp := DataReply(Arr([]));
      return;
    }
    var final := ConcatLogs(FieldsOf(node));
    resp := DataReply(Arr(SortDesc(final, SmsKey)));
  }

  /** `getSmsByDevice`: one device's messages, newest first. */
  method SmsByDevice(db: Db, uid: string) returns (resp: Response)
    ensures resp == DataReply(Arr(SortDesc(Normalize(uid, GetPath(db.root, SmsRoot + [uid])), SmsKey)))
  {
    var node := db.Read(SmsRoot + [uid]);
    if !Exists(node) {
      resp := DataReply(Arr([]));
      return;
    }
    var list := NormalizeList(uid, node);
    resp := DataReply(Arr(SortDesc(list, SmsKey)));
  }

  /** `getLatestSmsByDevice`: `null` for a device without messages, otherwise
      a message of the device with the largest time. */
  method LatestSmsByDevice(db: Db, uid: string) returns (resp: Response)
    ensures var list := Normalize(uid, GetPath(db.root, SmsRoot + [uid]));
      resp.status == 200 && Get(resp.body, "success") == Bool(true)
      && (list == [] ==> resp == DataReply(Null))
      && (list != [] ==> resp == DataReply(SortDesc(list, SmsKey)[0]))
    ensures var list := Normalize(uid, GetPath(db.root, SmsRoot + [uid]));
      list != [] ==> Get(resp.body, "data") in list
                     && forall x :: x in list ==> SmsKey(Get(resp.body, "data")) >= SmsKey(x)
  {
    var node := db.Read(SmsRoot + [uid]);
    if !Exists(node) {
      resp := DataReply(Null);
      Lookup2(Field("success", Bool(true)), Field("data", Null), "success");
      return;
    }
    var list := NormalizeList(uid, node);
    if |list| == 0 {
      resp := DataReply(Null);
      Lookup2(Field("success", Bool(true)), Field("data", Null), "success");
      return;
    }
    var sorted := SortDesc(list, SmsKey);
    SortDescHeadIsMax(list, SmsKey);
    resp := DataReply(sorted[0]);
    Lookup2(Field("success", Bool(true)), Field("data", sorted[0]), "success");
    Lookup2(Field("success", Bool(true)), Field("data", sorted[0]), "data");
  }
}
