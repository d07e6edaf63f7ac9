/** `controllers/adminController.js`: the admin number kept in the document
    store as `adminNumber/main`, and the listing of the `devices` collection.
    The document store is a second `Db`. */
module Admin {
  import opened JsValue
  import opened Tree
  import opened Channel
  import opened Lists

  const AdminDoc: Path := ["adminNumber", "main"]
  const DevicesRoot: Path := ["devices"]

  /** The reply when no admin number was ever set. */
  const Unset: Json := Obj([Field("number", Str("Inactive")), Field("status", Str("OFF"))])

  function DataReply(data: Json): Response {
    Response(200, Obj([Field("success", Bool(true)), Field("data", data)]))
  }

  /** `getAdminNumber`: the stored document, or the inactive default when there is none. */
  function AdminNumber(root: Json): (r: Response)
    ensures r.status == 200
    ensures Get(r.body, "data") == if Exists(GetPath(root, AdminDoc)) then GetPath(root, AdminDoc) else Unset
  {
    var doc := GetPath(root, AdminDoc);
    var data := if Exists(doc) then doc else Unset;
    Lookup2(Field("success", Bool(true)), Field("data", data), "data");
    DataReply(data)
  }

  /** With status `"OFF"` the number is forced to `"Inactive"`. */
  function EffectiveNumber(body: Json): Json {
    if StrictEq(Get(body, "status"), Str("OFF")) then Str("Inactive") else Get(body, "number")
  }

  /** The merged fields. */
  function AdminFields(body: Json, now: int): seq<Field> {
    [Field("number", EffectiveNumber(body)), Field("status", Get(body, "status")), Field("updatedAt", Num(now))]
  }

  /** A field the document store refuses: a number or status the body lacks
      (the number only matters when it is not forced). */
  predicate HasUndefined(body: Json) {
    !Has(body, "status") || (!StrictEq(Get(body, "status"), Str("OFF")) && !Has(body, "number"))
  }

  /** A body whose merged fields the document store refuses: one is `undefined`,
      or the number or the status nests an array in an array. */
  predicate Unstorable(body: Json) {
    HasUndefined(body) || NestsArray(EffectiveNumber(body)) || NestsArray(Get(body, "status"))
  }

  function Failure(status: nat, message: string): Response {
    Response(status, Obj([Field("success", Bool(false)), Field("message", Str(message))]))
  }

  /** `setAdminNumber`: a body the store refuses gets 500 with nothing written or
      emitted. Otherwise `{ number, status, updatedAt }` is merged into the
      document; then, when the socket server is attached (`hasIo`), every
      client gets `adminUpdate` and the reply echoes number and status; without
      it the call to `emit` throws after the write and the reply is 500. The
      emitted `updatedAt` is the `Date` object, passed in as `date`. */
  method SetAdminNumber(fs: Db, out: Outbox, body: Json, now: int, date: Json, hasIo: bool) returns (resp: Response)
    modifies fs, out
    ensures Unstorable(body) ==> fs.root == old(fs.root) && out.log == old(out.log) && resp == Failure(500, "Server Error")
    ensures !Unstorable(body) ==>
              fs.root == MergeDoc(old(fs.root), AdminDoc, AdminFields(body, now))
              && out.log == old(out.log) + (if hasIo then [Emit(Everyone, "adminUpdate",
                                                                   Obj([Field("number", EffectiveNumber(body)),
                                                                        Field("status", Get(body, "status")),
                                                                        Field("updatedAt", date)]))]
                                            else [])
              && resp == if hasIo then Response(200, Obj([Field("success", Bool(true)),
                                                          Field("message", Str("Admin updated successfully")),
                                                          Field("data", Obj([Field("number", EffectiveNumber(body)),
                                                                             Field("status", Get(body, "status"))]))]))
                         else Failure(500, "Server Error")
  {
    var number, status := Get(body, "number"), Get(body, "status");
    if StrictEq(status, Str("OFF")) {
      number := Str("Inactive");
    }
    if Unstorable(body) {
      resp := Failure(500, "Server Error");
      return;
    }
    fs.MergeSet(AdminDoc, [Field("number", number), Field("status", status), Field("updatedAt", Num(now))]);
    if !hasIo {
      resp := Failure(500, "Server Error");
      return;
    }
    out.Emit(Everyone, "adminUpdate", Obj([Field("number", number), Field("status", status), Field("updatedAt", date)]));
    resp := Response(200, Obj([Field("success", Bool(true)), Field("message", Str("Admin updated successfully")),
                               Field("data", Obj([Field("number", number), Field("status", status)]))]));
  }

  /** The merge sets the three fields, a `null` or empty-map value included,
      and keeps the document's other fields; with status `"OFF"` the stored
      number is `"Inactive"`, and the next read returns the merged document. */
  lemma {:induction false} SetThenGet(root: Json, body: Json, now: int)
    ensures var after := MergeDoc(root, AdminDoc, AdminFields(body, now));
      var doc := GetPath(after, AdminDoc);
      Has(doc, "number") && Has(doc, "status")
      && Get(doc, "number") == EffectiveNumber(body) && Get(doc, "status") == Get(body, "status")
      && Get(doc, "updatedAt") == Num(now)
      && (StrictEq(Get(body, "status"), Str("OFF")) ==> Get(doc, "number") == Str("Inactive"))
      && (forall k | k != "number" && k != "status" && k != "updatedAt" :: Get(doc, k) == Get(GetPath(root, AdminDoc), k))
      && Get(AdminNumber(after).body, "data") == doc
  {
    var fs := AdminFields(body, now);
    MergeDocReads(root, AdminDoc, fs, AdminDoc);
    var before := FieldsOf(GetPath(root, AdminDoc));
    MergeLookup3(before, fs[0], fs[1], fs[2], "number");
    MergeLookup3(before, fs[0], fs[1], fs[2], "status");
    MergeLookup3(before, fs[0], fs[1], fs[2], "updatedAt");
    forall k | k != "number" && k != "status" && k != "updatedAt"
      ensures Lookup(Merge(before, fs), k) == Lookup(before, k) {
      MergeLookup3(before, fs[0], fs[1], fs[2], k);
    }
  }

  // ---------------------------------------------------------------------------
  // getAllDevices
  // ---------------------------------------------------------------------------

  /** `{ id: doc.id, ...doc.data() }`. */
  function DeviceEntry(f: Field): Json {
    Spread([Field("id", Str(f.key))], f.val)
  }

  /** The documents of the `devices` collection. */
  function DeviceDocs(root: Json): seq<Field> {
    var node := GetPath(root, DevicesRoot);
    if Exists(node) then FieldsOf(node) else []
  }

  /** `getAllDevices`: an empty collection gets a reply with no `count`; otherwise
      one entry per document, pushed in a loop, and `count` its length. */
  method AllDevices(fs: Db) returns (resp: Response)
    ensures DeviceDocs(fs.root) == [] ==>
              resp == Response(200, Obj([Field("success", Bool(true)), Field("message", Str("No devices found")),
                                         Field("data", Arr([]))]))
    ensures DeviceDocs(fs.root) != [] ==>
              var data := Entries(DeviceDocs(fs.root), DeviceEntry);
              resp == Response(200, Obj([Field("success", Bool(true)), Field("count", Num(|data|)), Field("data", Arr(data))]))
  {
    var node := fs.Read(DevicesRoot);
    var docs: seq<Field> := if Exists(node) then FieldsOf(node) else [];
    if docs == [] {
      resp := Response(200, Obj([Field("success", Bool(true)), Field("message", Str("No devices found")), Field("data", Arr([]))]));
      return;
    }
    var devices := PushEntries(docs, DeviceEntry);
    resp := Response(200, Obj([Field("success", Bool(true)), Field("count", Num(|devices|)), Field("data", Arr(devices))]));
  }

  /** The listing has one entry per document, in order, each carrying the
      document's id unless its data has its own, and `count` is the number of
      documents. */
  lemma {:induction false} AllDevicesShape(root: Json)
    ensures var docs := DeviceDocs(root);
      var data := Entries(docs, DeviceEntry);
      |data| == |docs|
      && forall i :: 0 <= i < |docs| ==>
           Get(data[i], "id") == (if Has(docs[i].val, "id") then Get(docs[i].val, "id") else Str(docs[i].key))
           && forall k | k != "id" :: Get(data[i], k) == Get(docs[i].val, k)
  {
    var docs := DeviceDocs(root);
    forall i | 0 <= i < |docs|
      ensures Get(DeviceEntry(docs[i]), "id") == (if Has(docs[i].val, "id") then Get(docs[i].val, "id") else Str(docs[i].key))
      ensures forall k | k != "id" :: Get(DeviceEntry(docs[i]), k) == Get(docs[i].val, k) {
      SpreadFields([Field("id", Str(docs[i].key))], docs[i].val);
      forall k ensures Lookup([Field("id", Str(docs[i].key))], k) == if k == "id" then Some(Str(docs[i].key)) else None {
        Lookup1(Field("id", Str(docs[i].key)), k);
      }
    }
  }
}
