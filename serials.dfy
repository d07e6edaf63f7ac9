/** `controllers/deviceSerialController.js`: serial records under
    `deviceSerials/<id>`, written as the client supplies them and listed in
    store order or newest first. */
module Serials {
  import opened JsValue
  import opened Tree
  import opened Sorting
  import opened Channel
  import opened Lists

  const SerialRoot: Path := ["deviceSerials"]

  /** `{ serialNo, time, timestamp: Date.now() }`. */
  function SerialRecord(serialNo: Json, time: Json, now: int): Json {
    Obj([Field("serialNo", serialNo), Field("time", time), Field("timestamp", Num(now))])
  }

  /** `postDeviceSerial` rejects a body in which any of the three fields is falsy. */
  predicate SerialBodyOk(body: Json) {
    Truthy(Get(body, "id")) && Truthy(Get(body, "serialNo")) && Truthy(Get(body, "time"))
  }

  /** `postDeviceSerial`: a body with a falsy `id`, `serialNo` or `time` gets 400
      and nothing is written; otherwise `deviceSerials/<id>` is overwritten with
      the record. No allocation and no uniqueness check takes place. */
  method PostDeviceSerial(db: Db, body: Json, now: int) returns (resp: Response)
    modifies db
    ensures !SerialBodyOk(body) ==>
              db.root == old(db.root)
              && resp == Response(400, Obj([Field("success", Bool(false)), Field("message", Str("id, serialNo aur time required hai"))]))
    ensures SerialBodyOk(body) ==>
              var rec := SerialRecord(Get(body, "serialNo"), Get(body, "time"), now);
              db.root == SetPath(old(db.root), SerialRoot + [JsString(Get(body, "id"))], rec)
              && resp == Response(200, Obj([Field("success", Bool(true)), Field("message", Str("Device serial saved successfully")),
                                            Field("id", Get(body, "id")), Field("data", rec)]))
  {
    var id, serialNo, time := Get(body, "id"), Get(body, "serialNo"), Get(body, "time");
    if !Truthy(id) || !Truthy(serialNo) || !Truthy(time) {
      resp := Response(400, Obj([Field("success", Bool(false)), Field("message", Str("id, serialNo aur time required hai"))]));
      return;
    }
    var data := SerialRecord(serialNo, time, now);
    db.Write(SerialRoot + [JsString(id)], data);
    resp := Response(200, Obj([Field("success", Bool(true)), Field("message", Str("Device serial saved successfully")),
                               Field("id", id), Field("data", data)]));
  }

  /** After a post, the id's record holds exactly the client's serial number and
      time and the post's timestamp. */
  lemma {:induction false} PostReadBack(root: Json, id: string, serialNo: Json, time: Json, now: int)
    ensures var rec := GetPath(SetPath(root, SerialRoot + [id], SerialRecord(serialNo, time, now)), SerialRoot + [id]);
      rec == SerialRecord(serialNo, time, now)
      && Get(rec, "serialNo") == serialNo && Get(rec, "time") == time && Get(rec, "timestamp") == Num(now)
  {
    ReadBack(root, SerialRoot + [id], SerialRecord(serialNo, time, now));
    var fs := SerialRecord(serialNo, time, now).fields;
    Lookup3(fs[0], fs[1], fs[2], "serialNo");
    Lookup3(fs[0], fs[1], fs[2], "time");
    Lookup3(fs[0], fs[1], fs[2], "timestamp");
  }

  /** Posting for one id leaves every other id's record as it was: two devices
      may hold the same serial number. */
  lemma {:induction false} PostKeepsOthers(root: Json, id: string, other: string, serialNo: Json, time: Json, now: int)
    requires other != id
    ensures GetPath(SetPath(root, SerialRoot + [id], SerialRecord(serialNo, time, now)), SerialRoot + [other])
            == GetPath(root, SerialRoot + [other])
  {
    DivergeSiblings(SerialRoot, id, other, [], []);
    assert SerialRoot + [id] + [] == SerialRoot + [id];
    assert SerialRoot + [other] + [] == SerialRoot + [other];
    ReadOther(root, SerialRoot + [id], SerialRecord(serialNo, time, now), SerialRoot + [other]);
  }

  /** `getDeviceById`. */
  function DeviceById(root: Json, id: string): (r: Response)
    ensures id == [] ==> r.status == 400
    ensures id != [] && !Exists(GetPath(root, SerialRoot + [id])) ==> r.status == 404
    ensures id != [] && Exists(GetPath(root, SerialRoot + [id])) ==>
              r.status == 200 && Get(r.body, "data") == GetPath(root, SerialRoot + [id])
  {
    if id == [] then
      Response(400, Obj([Field("success", Bool(false)), Field("message", Str("Device ID required"))]))
    else
      var node := GetPath(root, SerialRoot + [id]);
      if !Exists(node) then
        Response(404, Obj([Field("success", Bool(false)), Field("message", Str("Device not found"))]))
      else
        var fs := [Field("success", Bool(true)), Field("id", Str(id)), Field("data", node)];
        Lookup3(fs[0], fs[1], fs[2], "data");
        Response(200, Obj(fs))
  }

  /** `{ id, ...obj }`. */
  function SerialEntry(f: Field): Json {
    Spread([Field("id", Str(f.key))], f.val)
  }

  /** `{ id, ...obj, timestamp: obj.timestamp || obj.time || 0 }`. */
  function LatestEntry(f: Field): Json {
    Obj(Merge(Merge([Field("id", Str(f.key))], FieldsOf(f.val)),
              [Field("timestamp", Or(Or(Get(f.val, "timestamp"), Get(f.val, "time")), Num(0)))]))
  }

  lemma {:induction false} LatestEntryTimestamp(f: Field)
    ensures Get(LatestEntry(f), "timestamp") == Or(Or(Get(f.val, "timestamp"), Get(f.val, "time")), Num(0))
  {
    Lookup1(Field("timestamp", Or(Or(Get(f.val, "timestamp"), Get(f.val, "time")), Num(0))), "timestamp");
  }

  /** The sort key of `(a, b) => b.timestamp - a.timestamp`; `NaN` counts as 0. */
  function TimestampKey(e: Json): int {
    ToNumber(Get(e, "timestamp")).GetOr(0)
  }

  function ListReply(data: seq<Json>): Response {
    Response(200, Obj([Field("success", Bool(true)), Field("count", Num(|data|)), Field("data", Arr(data))]))
  }

  /** The `count` and `data` a list reply carries. */
  lemma ListReplyFields(data: seq<Json>)
    ensures Get(ListReply(data).body, "count") == Num(|data|) && Get(ListReply(data).body, "data") == Arr(data)
  {
    var b := ListReply(data).body;
    Lookup3(b.fields[0], b.fields[1], b.fields[2], "count");
    Lookup3(b.fields[0], b.fields[1], b.fields[2], "data");
  }

  /** The records under `deviceSerials`, when it exists. */
  function SerialRecords(root: Json): seq<Field> {
    var node := GetPath(root, SerialRoot);
    if Exists(node) then FieldsOf(node) else []
  }

  /** `getAllDeviceSerials`: one entry per stored id, in store order. */
  function AllDeviceSerials(root: Json): (r: Response)
    ensures r.status == 200 && Get(r.body, "count") == Num(|SerialRecords(root)|)
    ensures Get(r.body, "data").Arr? && |Get(r.body, "data").items| == |SerialRecords(root)|
  {
    var data := Entries(SerialRecords(root), SerialEntry);
    ListReplyFields(data);
    ListReply(data)
  }

  /** `getLatestDeviceSerials`: every stored record, newest first. */
  function LatestDeviceSerials(root: Json): (r: Response)
    ensures r.status == 200 && Get(r.body, "count") == Num(|SerialRecords(root)|)
    ensures Get(r.body, "data").Arr?
    ensures var data := Get(r.body, "data").items;
      multiset(data) == multiset(Entries(SerialRecords(root), LatestEntry)) && SortedDesc(data, TimestampKey)
  {
    var entries := Entries(SerialRecords(root), LatestEntry);
    var data := SortDesc(entries, TimestampKey);
    ListReplyFields(data);
    ListReply(data)
  }

  /** `count` is the number of entries, one per stored id, each carrying its id
      unless the record has its own; an empty store gives 0 and `[]`. */
  lemma {:induction false} AllDeviceSerialsShape(root: Json)
    ensures var data := Entries(SerialRecords(root), SerialEntry);
      AllDeviceSerials(root) == ListReply(data)
      && |data| == |SerialRecords(root)|
      && (forall i :: 0 <= i < |data| ==>
            Get(data[i], "id") == (if Has(SerialRecords(root)[i].val, "id") then Get(SerialRecords(root)[i].val, "id")
                                   else Str(SerialRecords(root)[i].key)))
    ensures !Exists(GetPath(root, SerialRoot)) ==> AllDeviceSerials(root) == ListReply([])
  {
    var fs := SerialRecords(root);
    forall i | 0 <= i < |fs|
      ensures Get(SerialEntry(fs[i]), "id") == (if Has(fs[i].val, "id") then Get(fs[i].val, "id") else Str(fs[i].key)) {
      SpreadFields([Field("id", Str(fs[i].key))], fs[i].val);
      Lookup1(Field("id", Str(fs[i].key)), "id");
    }
  }

  /** The newest-first listing is a reordering of all entries, each with the
      fallback timestamp, sorted by it; `count` is its length. */
  lemma {:induction false} LatestDeviceSerialsShape(root: Json)
    ensures var entries := Entries(SerialRecords(root), LatestEntry);
      var data := SortDesc(entries, TimestampKey);
      LatestDeviceSerials(root) == ListReply(data)
      && multiset(data) == multiset(entries) && SortedDesc(data, TimestampKey)
      && |data| == |SerialRecords(root)|
      && forall i :: 0 <= i < |entries| ==>
           Get(entries[i], "timestamp") ==
             Or(Or(Get(SerialRecords(root)[i].val, "timestamp"), Get(SerialRecords(root)[i].val, "time")), Num(0))
  {
    var fs := SerialRecords(root);
    forall i | 0 <= i < |fs|
      ensures Get(LatestEntry(fs[i]), "timestamp") == Or(Or(Get(fs[i].val, "timestamp"), Get(fs[i].val, "time")), Num(0)) {
      LatestEntryTimestamp(fs[i]);
    }
  }
}
