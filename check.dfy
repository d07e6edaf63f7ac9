/** `controllers/checkController.js`: its own `smsWatchers` and `simWatchers`
    maps behind the SMS-status and SIM-forward routes (keyed by the route's uid
    as given, without cleaning), the check-online record a device posts, the
    "active in the last 15 minutes" listing, and the restart and permission
    records. */
module CheckController {
  import opened JsValue
  import opened Tree
  import opened Channel
  import opened Watch
  import opened StatusLists
  import opened Fleet

  const SimForwardRoot: Path := ["simForwardStatus"]
  const RestartRoot: Path := ["restartCollection"]

  /** 15 minutes in milliseconds. */
  const FifteenMinutes: int := 15 * 60 * 1000

  // ---------------------------------------------------------------------------
  // Payloads
  // ---------------------------------------------------------------------------

  /** The payload a status listener emits: the list, or for a node that does not
      exist an empty list with an explanatory message. */
  function ListPayload(uid: string, node: Json, list: seq<Json>, absent: string): (p: Json)
    ensures Get(p, "uid") == Str(uid) && Get(p, "success") == Bool(true)
    ensures Get(p, "data") == if Exists(node) then Arr(list) else Arr([])
    ensures Has(p, "message") <==> !Exists(node)
  {
    var head := [Field("uid", Str(uid)), Field("success", Bool(true))];
    if Exists(node) then
      var f := Field("data", Arr(list));
      forall k ensures Lookup(head + [f], k) == Lookup([head[0], head[1], f], k) {
        assert head + [f] == [head[0], head[1], f];
      }
      Lookup3(head[0], head[1], f, "uid");
      Lookup3(head[0], head[1], f, "success");
      Lookup3(head[0], head[1], f, "data");
      Lookup3(head[0], head[1], f, "message");
      Obj([head[0], head[1], f])
    else
      var f := Field("data", Arr([]));
      var m := Field("message", Str(absent));
      Lookup4(head[0], head[1], f, m, "uid");
      Lookup4(head[0], head[1], f, m, "success");
      Lookup4(head[0], head[1], f, m, "data");
      Lookup4(head[0], head[1], f, m, "message");
      Obj([head[0], head[1], f, m])
  }

  /** `data ? { uid, ...data } : null` after `snap.exists() ? snap.val() : null`:
      a record that does not exist, or exists but is falsy, reads as `null`. */
  function DataWithUid(uid: string, node: Json): (r: Json)
    ensures r.Null? <==> !(Exists(node) && Truthy(node))
    ensures Exists(node) && Truthy(node) ==>
              Get(r, "uid") == (if Has(node, "uid") then Get(node, "uid") else Str(uid))
  {
    if Truthy(node) then WithUid(uid, node) else Null
  }

  // ---------------------------------------------------------------------------
  // The check-online record
  // ---------------------------------------------------------------------------

  /** `{ available: available || "checking", checkedAt }`. */
  function CheckOnlineRecord(available: Json, now: int): Json {
    Obj([Field("available", Or(available, Str("checking"))), Field("checkedAt", Num(now))])
  }

  /** The saved record always exists, carries a truthy `available` and the time
      of the request. */
  lemma {:induction false} CheckOnlineRecordFields(available: Json, now: int)
    ensures Exists(CheckOnlineRecord(available, now)) && Truthy(CheckOnlineRecord(available, now))
    ensures Get(CheckOnlineRecord(available, now), "available") == (if Truthy(available) then available else Str("checking"))
    ensures Truthy(Get(CheckOnlineRecord(available, now), "available"))
    ensures Get(CheckOnlineRecord(available, now), "checkedAt") == Num(now)
  {
    var fs := CheckOnlineRecord(available, now).fields;
    Lookup2(fs[0], fs[1], "available");
    Lookup2(fs[0], fs[1], "checkedAt");
  }

  // ---------------------------------------------------------------------------
  // The active-devices listing
  // ---------------------------------------------------------------------------

  /** `deviceData.checkedAt || deviceData.timestamp || 0`. */
  function CheckedAt(d: Json): Json {
    Or(Or(Get(d, "checkedAt"), Get(d, "timestamp")), Num(0))
  }

  /** `String(deviceData.available || "").toLowerCase().trim()`. */
  function AvailableText(d: Json): string {
    Trim(Lower(JsString(Or(Get(d, "available"), Str("")))))
  }

  /** The three conditions of the listing: the record is an object (arrays are
      objects too), its `available` text mentions "device is online", and its
      time, as a number, is later than 15 minutes before `now` (`NaN` is not). */
  predicate IsActive(d: Json, now: int) {
    (d.Obj? || d.Arr?)
    && Contains(AvailableText(d), "device is online")
    && ToNumber(CheckedAt(d)).Some? && ToNumber(CheckedAt(d)).value > now - FifteenMinutes
  }

  /** `{ uid, ...deviceData, lastSeen: checkedAt, isActive: true }`. */
  function ActiveEntry(uid: string, d: Json): Json {
    Obj(Merge(Merge([Field("uid", Str(uid))], FieldsOf(d)), [Field("lastSeen", CheckedAt(d)), Field("isActive", Bool(true))]))
  }

  /** Every entry reports `lastSeen` and `isActive: true`, holds the uid unless
      the record has its own, and every other field of the record. */
  lemma {:induction false} ActiveEntryFields(uid: string, d: Json)
    ensures Get(ActiveEntry(uid, d), "lastSeen") == CheckedAt(d)
    ensures Get(ActiveEntry(uid, d), "isActive") == Bool(true)
    ensures Get(ActiveEntry(uid, d), "uid") == if Has(d, "uid") then Get(d, "uid") else Str(uid)
    ensures forall k :: k != "uid" && k != "lastSeen" && k != "isActive" ==>
              Get(ActiveEntry(uid, d), k) == Get(d, k)
  {
    MergeAround(Field("uid", Str(uid)), FieldsOf(d), Field("lastSeen", CheckedAt(d)), Field("isActive", Bool(true)));
  }

  /** The object built by visiting `fs` in order and assigning `obj[f.key] = entry(f)`
      for every field whose value `keep` accepts. */
  function Keep(fs: seq<Field>, keep: Json -> bool, entry: Field -> Json): seq<Field>
    decreases |fs|
  {
    if fs == [] then []
    else
      var f := fs[|fs| - 1];
      var acc := Keep(fs[..|fs| - 1], keep, entry);
      if keep(f.val) then Put(acc, f.key, entry(f)) else acc
  }

  /** The number of fields whose value `keep` accepts. */
  function CountKept(fs: seq<Field>, keep: Json -> bool): nat
    decreases |fs|
  {
    if fs == [] then 0
    else CountKept(fs[..|fs| - 1], keep) + (if keep(fs[|fs| - 1].val) then 1 else 0)
  }

  /** `Object.entries(data).forEach(...)` with an object and a counter
      accumulated in the loop. */
  method KeepEntries(fs: seq<Field>, keep: Json -> bool, entry: Field -> Json) returns (kept: seq<Field>, count: nat)
    ensures kept == Keep(fs, keep, entry)
    ensures count == CountKept(fs, keep)
  {
    kept := [];
    count := 0;
    var i := 0;
    while i < |fs|
      invariant 0 <= i <= |fs|
      invariant kept == Keep(fs[..i], keep, entry)
      invariant count == CountKept(fs[..i], keep)
    {
      var f := fs[i];
      assert fs[..i + 1][..i] == fs[..i] && fs[..i + 1][i] == f;
      if keep(f.val) {
        kept := Put(kept, f.key, entry(f));
        count := count + 1;
      }
      i := i + 1;
    }
    assert fs[..|fs|] == fs;
  }

  /** A key is in the result exactly when one of its fields is accepted. */
  lemma {:induction false} KeepHas(fs: seq<Field>, keep: Json -> bool, entry: Field -> Json, k: string)
    ensures Lookup(Keep(fs, keep, entry), k).Some? <==> exists i :: 0 <= i < |fs| && fs[i].key == k && keep(fs[i].val)
    decreases |fs|
  {
    if fs != [] {
      var init := fs[..|fs| - 1];
      KeepHas(init, keep, entry, k);
      if exists i :: 0 <= i < |init| && init[i].key == k && keep(init[i].val) {
        var i :| 0 <= i < |init| && init[i].key == k && keep(init[i].val);
        assert fs[i] == init[i];
      }
      if exists i :: 0 <= i < |fs| && fs[i].key == k && keep(fs[i].val) {
        var i :| 0 <= i < |fs| && fs[i].key == k && keep(fs[i].val);
        if i < |init| {
          assert init[i] == fs[i];
        }
      }
    }
  }

  /** With distinct keys, an accepted field maps to its entry. */
  lemma {:induction false} KeepGet(fs: seq<Field>, keep: Json -> bool, entry: Field -> Json, i: nat)
    requires DistinctKeys(fs) && i < |fs| && keep(fs[i].val)
    ensures Lookup(Keep(fs, keep, entry), fs[i].key) == Some(entry(fs[i]))
    decreases |fs|
  {
    var init := fs[..|fs| - 1];
    if i < |fs| - 1 {
      assert init[i] == fs[i];
      assert DistinctKeys(init);
      KeepGet(init, keep, entry, i);
    }
  }

  /** With distinct keys, the count is the number of keys in the result. */
  lemma {:induction false} KeepCountIsSize(fs: seq<Field>, keep: Json -> bool, entry: Field -> Json)
    requires DistinctKeys(fs)
    ensures CountKept(fs, keep) == |Keep(fs, keep, entry)|
    decreases |fs|
  {
    if fs != [] {
      var init := fs[..|fs| - 1];
      var f := fs[|fs| - 1];
      assert DistinctKeys(init);
      KeepCountIsSize(init, keep, entry);
      if keep(f.val) {
        KeepHas(init, keep, entry, f.key);
        assert Lookup(Keep(init, keep, entry), f.key).None? by {
          forall i | 0 <= i < |init| ensures init[i].key != f.key {
            assert init[i] == fs[i];
          }
        }
        var r := Put(Keep(init, keep, entry), f.key, entry(f));
        assert |Keys(r)| == |Keys(Keep(init, keep, entry))| + 1;
      }
    }
  }

  /** `activeDevices` after the records `fs` have been visited. */
  function Active(fs: seq<Field>, now: int): seq<Field> {
    Keep(fs, d => IsActive(d, now), (f: Field) => ActiveEntry(f.key, f.val))
  }

  /** `activeCount` after the records `fs` have been visited. */
  function ActiveCount(fs: seq<Field>, now: int): nat {
    CountKept(fs, d => IsActive(d, now))
  }

  /** A uid is listed exactly when its record passes the three conditions; with
      the distinct keys of a stored object it maps to the entry built from that
      record, and `count` is the number of uids listed. */
  lemma {:induction false} ActiveListing(fs: seq<Field>, now: int)
    requires DistinctKeys(fs)
    ensures forall k :: Lookup(Active(fs, now), k).Some? <==>
              exists i :: 0 <= i < |fs| && fs[i].key == k && IsActive(fs[i].val, now)
    ensures forall i :: 0 <= i < |fs| && IsActive(fs[i].val, now) ==>
              Lookup(Active(fs, now), fs[i].key) == Some(ActiveEntry(fs[i].key, fs[i].val))
    ensures ActiveCount(fs, now) == |Active(fs, now)|
  {
    var keep := d => IsActive(d, now);
    var entry := (f: Field) => ActiveEntry(f.key, f.val);
    forall k ensures Lookup(Active(fs, now), k).Some? <==>
              exists i :: 0 <= i < |fs| && fs[i].key == k && IsActive(fs[i].val, now) {
      KeepHas(fs, keep, entry, k);
    }
    forall i | 0 <= i < |fs| && IsActive(fs[i].val, now)
      ensures Lookup(Active(fs, now), fs[i].key) == Some(ActiveEntry(fs[i].key, fs[i].val)) {
      KeepGet(fs, keep, entry, i);
    }
    KeepCountIsSize(fs, keep, entry);
  }

  /** A record saved by `saveCheckOnlineStatus` at `savedAt` is counted active at
      `now` exactly when its `available` text says the device is online and it
      was saved less than 15 minutes before `now`. */
  lemma {:induction false} SavedRecordActive(available: Json, savedAt: int, now: int)
    ensures IsActive(CheckOnlineRecord(available, savedAt), now) <==>
            Contains(Trim(Lower(JsString(if Truthy(available) then available else Str("checking")))), "device is online")
            && savedAt > now - FifteenMinutes
  {
    var rec := CheckOnlineRecord(available, savedAt);
    CheckOnlineRecordFields(available, savedAt);
    assert Get(rec, "timestamp") == Null by {
      Lookup2(rec.fields[0], rec.fields[1], "timestamp");
    }
    assert CheckedAt(rec) == Num(savedAt);
  }

  /** The body of the listing's reply. */
  function RepliesBody(active: seq<Field>, count: nat, now: int): Json {
    Obj([Field("success", Bool(true)), Field("data", Obj(active)), Field("count", Num(count)),
         Field("timestamp", Num(now)), Field("fifteenMinutesAgo", Num(now - FifteenMinutes)),
         Field("message", Str("Found " + IntToString(count) + " active devices in last 15 minutes"))])
  }

  /** The records under `checkOnline`, when that node is an object. */
  function Records(node: Json): seq<Field> {
    if Exists(node) then FieldsOf(node) else []
  }

  // ---------------------------------------------------------------------------
  // The controller's state
  // ---------------------------------------------------------------------------

  class Checker {
    const db: Db
    const out: Outbox
    const sms: Watchers
    const sim: Watchers

    predicate Valid()
      reads this, sms, sim
    {
      sms != sim && sms.root == SmsStatusRoot && sim.root == SimForwardRoot
      && sms.Valid() && sim.Valid()
    }

    constructor (db: Db, out: Outbox)
      ensures this.db == db && this.out == out
      ensures Valid() && sms.OnePerUid() && sim.OnePerUid()
      ensures sms.handles == map[] && sim.handles == map[]
    {
      this.db := db;
      this.out := out;
      sms := new Watchers(SmsStatusRoot);
      sim := new Watchers(SimForwardRoot);
    }

    /** `getSmsStatusByDevice`: stops the uid's SMS watcher, reads the sorted list,
        starts a new watcher (whose first `value` event reports the node once). */
    method SmsStatus(uid: string) returns (resp: Response)
      requires Valid()
      modifies sms, out
      ensures Valid()
      ensures resp == RouteReply(Arr(SmsStatusData(uid, GetPath(db.root, SmsStatusRoot + [uid]))),
                                 "Live SMS status listening started")
      ensures out.log == old(out.log) +
        [Emit(Everyone, "smsStatusUpdate",
              ListPayload(uid, GetPath(db.root, SmsStatusRoot + [uid]),
                          SmsStatusData(uid, GetPath(db.root, SmsStatusRoot + [uid])), "No SMS logs found"))]
      ensures uid in sms.handles
      ensures sms.ListenersAt(SmsStatusRoot + [uid]) == {sms.handles[uid]}
      ensures sms.handles == old(sms.handles)[uid := sms.handles[uid]]
      ensures old(sms.OnePerUid()) ==> sms.OnePerUid()
    {
      var node := db.Read(SmsStatusRoot + [uid]);
      var list := SmsStatusList(uid, node);
      ghost var one := sms.OnePerUid();
      var h := sms.Restart(uid);
      assert sms.ListenersAt(SmsStatusRoot + [uid]) == {h} && (one ==> sms.OnePerUid());
      out.Emit(Everyone, "smsStatusUpdate", ListPayload(uid, node, list, "No SMS logs found"));
      resp := RouteReply(Arr(list), "Live SMS status listening started");
    }

    /** `getSimForwardStatus`: the same for the uid's SIM-forward watcher. */
    method SimForward(uid: string) returns (resp: Response)
      requires Valid()
      modifies sim, out
      ensures Valid()
      ensures resp == RouteReply(Arr(SimForwardData(GetPath(db.root, SimForwardRoot + [uid]))),
                                 "Live SIM forward listening started")
      ensures out.log == old(out.log) +
        [Emit(Everyone, "simForwardUpdate",
              ListPayload(uid, GetPath(db.root, SimForwardRoot + [uid]),
                          SimForwardData(GetPath(db.root, SimForwardRoot + [uid])), "No SIM forward status found"))]
      ensures uid in sim.handles
      ensures sim.ListenersAt(SimForwardRoot + [uid]) == {sim.handles[uid]}
      ensures sim.handles == old(sim.handles)[uid := sim.handles[uid]]
      ensures old(sim.OnePerUid()) ==> sim.OnePerUid()
    {
      var node := db.Read(SimForwardRoot + [uid]);
      var list := SimForwardList(node);
      ghost var one := sim.OnePerUid();
      var h := sim.Restart(uid);
      assert sim.ListenersAt(SimForwardRoot + [uid]) == {h} && (one ==> sim.OnePerUid());
      out.Emit(Everyone, "simForwardUpdate", ListPayload(uid, node, list, "No SIM forward status found"));
      resp := RouteReply(Arr(list), "Live SIM forward listening started");
    }

    /** A change at `commandCenter/smsStatus/<uid>`: each live listener there emits
        one `smsStatusUpdate`. */
    method OnSmsChange(uid: string)
      requires Valid()
      modifies out
      ensures out.log == old(out.log) +
        Repeat(Emit(Everyone, "smsStatusUpdate",
                    ListPayload(uid, GetPath(db.root, SmsStatusRoot + [uid]),
                                SmsStatusData(uid, GetPath(db.root, SmsStatusRoot + [uid])), "No SMS logs found")),
               |sms.ListenersAt(SmsStatusRoot + [uid])|)
    {
      var node := db.Read(SmsStatusRoot + [uid]);
      var list := SmsStatusList(uid, node);
      var n := |sms.ListenersAt(SmsStatusRoot + [uid])|;
      out.log := out.log + Repeat(Emit(Everyone, "smsStatusUpdate", ListPayload(uid, node, list, "No SMS logs found")), n);
    }

    /** A change at `simForwardStatus/<uid>`: each live listener there emits one
        `simForwardUpdate`. */
    method OnSimChange(uid: string)
      requires Valid()
      modifies out
      ensures out.log == old(out.log) +
        Repeat(Emit(Everyone, "simForwardUpdate",
                    ListPayload(uid, GetPath(db.root, SimForwardRoot + [uid]),
                                SimForwardData(GetPath(db.root, SimForwardRoot + [uid])), "No SIM forward status found")),
               |sim.ListenersAt(SimForwardRoot + [uid])|)
    {
      var node := db.Read(SimForwardRoot + [uid]);
      var list := SimForwardList(node);
      var n := |sim.ListenersAt(SimForwardRoot + [uid])|;
      out.log := out.log + Repeat(Emit(Everyone, "simForwardUpdate", ListPayload(uid, node, list, "No SIM forward status found")), n);
    }

    /** `saveCheckOnlineStatus`: overwrites `checkOnline/<uid>` with the record
        and echoes it with the uid. */
    method SaveCheckOnline(uid: string, body: Json, now: int) returns (resp: Response)
      modifies db
      ensures db.root == SetPath(old(db.root), BrosRoot + [uid], CheckOnlineRecord(Get(body, "available"), now))
      ensures resp == Response(200, Obj([Field("success", Bool(true)), Field("message", Str("Check Online Updated")),
                                         Field("data", WithUid(uid, CheckOnlineRecord(Get(body, "available"), now)))]))
    {
      var data := CheckOnlineRecord(Get(body, "available"), now);
      db.Write(BrosRoot + [uid], data);
      resp := Response(200, Obj([Field("success", Bool(true)), Field("message", Str("Check Online Updated")),
                                 Field("data", WithUid(uid, data))]));
    }

    /** `getAllBrosReplies`: visits the records under `checkOnline` once, keeping
        the active ones and counting them. */
    method AllBrosReplies(now: int) returns (resp: Response)
      ensures resp == Response(200, RepliesBody(Active(Records(GetPath(db.root, BrosRoot)), now),
                                                ActiveCount(Records(GetPath(db.root, BrosRoot)), now), now))
    {
      var node := db.Read(BrosRoot);
      var active, count := KeepEntries(Records(node), d => IsActive(d, now), (f: Field) => ActiveEntry(f.key, f.val));
      resp := Response(200, RepliesBody(active, count, now));
    }

    /** `getBrosReply`. */
    method BrosReply(uid: string) returns (resp: Response)
      ensures resp == Response(200, Obj([Field("success", Bool(true)),
                                         Field("data", DataWithUid(uid, GetPath(db.root, BrosRoot + [uid])))]))
    {
      var node := db.Read(BrosRoot + [uid]);
      resp := Response(200, Obj([Field("success", Bool(true)), Field("data", DataWithUid(uid, node))]));
    }

    /** `setRestart`: overwrites `restartCollection/<uid>` with `{ requested: true, at }`. */
    method SetRestart(uid: string, now: int) returns (resp: Response)
      modifies db
      ensures db.root == SetPath(old(db.root), RestartRoot + [uid], RestartRecord(now))
      ensures resp == Response(200, Obj([Field("success", Bool(true)), Field("data", WithUid(uid, RestartRecord(now)))]))
    {
      db.Write(RestartRoot + [uid], RestartRecord(now));
      resp := Response(200, Obj([Field("success", Bool(true)), Field("data", WithUid(uid, RestartRecord(now)))]));
    }

    /** `getRestart`. */
    method Restart(uid: string) returns (resp: Response)
      ensures resp == Response(200, Obj([Field("success", Bool(true)),
                                         Field("data", DataWithUid(uid, GetPath(db.root, RestartRoot + [uid])))]))
    {
      var node := db.Read(RestartRoot + [uid]);
      resp := Response(200, Obj([Field("success", Bool(true)), Field("data", DataWithUid(uid, node))]));
    }

    /** `getDevicePermissions`: the `permissions` child of the registered device. */
    method DevicePermissions(uid: string) returns (resp: Response)
      ensures var data := DataWithUid(uid, GetPath(db.root, Registry + [uid, "permissions"]));
        resp == Response(200, Obj([Field("success", Bool(true)), Field("data", data),
                                   Field("message", Str(if data.Null? then "No permissions found for this device"
                                                        else "Permissions fetched successfully"))]))
    {
      var node := db.Read(Registry + [uid, "permissions"]);
      var data := DataWithUid(uid, node);
      resp := Response(200, Obj([Field("success", Bool(true)), Field("data", data),
                                 Field("message", Str(if data.Null? then "No permissions found for this device"
                                                      else "Permissions fetched successfully"))]));
    }
  }

  function RestartRecord(now: int): Json {
    Obj([Field("requested", Bool(true)), Field("at", Num(now))])
  }

  /** What `getRestart` reads after `setRestart` is what `setRestart` replied. */
  lemma {:induction false} RestartRoundTrip(root: Json, uid: string, now: int)
    ensures DataWithUid(uid, GetPath(SetPath(root, RestartRoot + [uid], RestartRecord(now)), RestartRoot + [uid]))
            == WithUid(uid, RestartRecord(now))
  {
    ReadBack(root, RestartRoot + [uid], RestartRecord(now));
  }

  /** What `getBrosReply` reads after `saveCheckOnlineStatus` is what the save
      replied, and its `available` is never empty. */
  lemma {:induction false} CheckOnlineRoundTrip(root: Json, uid: string, available: Json, now: int)
    ensures var after := SetPath(root, BrosRoot + [uid], CheckOnlineRecord(available, now));
      DataWithUid(uid, GetPath(after, BrosRoot + [uid])) == WithUid(uid, CheckOnlineRecord(available, now))
      && Truthy(Get(GetPath(after, BrosRoot + [uid]), "available"))
  {
    ReadBack(root, BrosRoot + [uid], CheckOnlineRecord(available, now));
    CheckOnlineRecordFields(available, now);
  }
}
