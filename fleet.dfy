/** The long-running part of `server.js`: the device list pushed to dashboards
    and its cache, presence records written when a device socket registers or
    disconnects, the live watchers behind the `brosreply` and `sms-status`
    routes, the command relay to FCM, and the reaction to a check-online reply. */
module Fleet {
  import opened JsValue
  import opened Tree
  import opened Channel
  import opened Watch
  import opened StatusLists

  // ---------------------------------------------------------------------------
  // Identifiers
  // ---------------------------------------------------------------------------

  /** `clean(id)`: `undefined` and `null` stay absent; anything else is converted
      to a string, trimmed and upper-cased. */
  function Clean(raw: Json): (r: Option<string>)
    ensures r.None? <==> raw.Null?
  {
    if raw.Null? then None else Some(CleanString(raw))
  }

  function CleanString(raw: Json): string {
    Upper(Trim(JsString(raw)))
  }

  /** `clean` on a route parameter, which is always a string. */
  function CleanParam(s: string): string {
    Upper(Trim(s))
  }

  lemma {:induction false} UpperKeepsSpace(s: string)
    ensures forall i :: 0 <= i < |s| ==> (IsSpace(Upper(s)[i]) <==> IsSpace(s[i]))
  {
  }

  /** A cleaned id has no white space at either end and no lower-case ASCII letter,
      and cleaning it again changes nothing. */
  lemma {:induction false} CleanIdempotent(s: string)
    ensures var t := CleanParam(s);
      (t == [] || (!IsSpace(t[0]) && !IsSpace(t[|t| - 1])))
      && (forall i :: 0 <= i < |t| ==> !('a' <= t[i] <= 'z'))
      && CleanParam(t) == t
  {
    var m := Trim(s);
    var t := Upper(m);
    UpperKeepsSpace(m);
    TrimNoop(t);
    assert Upper(t) == t;
  }

  /** Ids coming from a socket or a route agree after cleaning. */
  lemma {:induction false} CleanStringParam(s: string)
    ensures Clean(Str(s)) == Some(CleanParam(s))
  {
  }

  // ---------------------------------------------------------------------------
  // The device list
  // ---------------------------------------------------------------------------

  const Registry: Path := ["registeredDevices"]
  const StatusRoot: Path := ["status"]

  /** `{ id, ...info, connectivity, lastSeen, timestamp }` for the registry entry
      `id` and its status record `st` (already defaulted to `{}`). */
  function DeviceEntry(id: string, info: Json, st: Json): Json {
    Obj(Merge(Merge([Field("id", Str(id))], FieldsOf(info)), StatusTail(st)))
  }

  function StatusTail(st: Json): seq<Field> {
    [Field("connectivity", Or(Get(st, "connectivity"), Str("Offline"))),
     Field("lastSeen", Or(Get(st, "lastSeen"), Or(Get(st, "timestamp"), Null))),
     Field("timestamp", Or(Get(st, "timestamp"), Null))]
  }

  /** The three status fields of an entry come from the status record, with defaults. */
  lemma {:induction false} DeviceEntryStatus(id: string, info: Json, st: Json)
    ensures Get(DeviceEntry(id, info, st), "connectivity") == Or(Get(st, "connectivity"), Str("Offline"))
    ensures Get(DeviceEntry(id, info, st), "lastSeen") == Or(Get(st, "lastSeen"), Or(Get(st, "timestamp"), Null))
    ensures Get(DeviceEntry(id, info, st), "timestamp") == Or(Get(st, "timestamp"), Null)
  {
    var base := Merge([Field("id", Str(id))], FieldsOf(info));
    var t := StatusTail(st);
    MergeLookup3(base, t[0], t[1], t[2], "connectivity");
    MergeLookup3(base, t[0], t[1], t[2], "lastSeen");
    MergeLookup3(base, t[0], t[1], t[2], "timestamp");
  }

  /** Every other field of an entry is the registry's; `id` is the key unless the
      registry record has its own `id`. */
  lemma {:induction false} DeviceEntryInfo(id: string, info: Json, st: Json)
    ensures Get(DeviceEntry(id, info, st), "id") == if Has(info, "id") then Get(info, "id") else Str(id)
    ensures forall k :: k != "id" && k != "connectivity" && k != "lastSeen" && k != "timestamp" ==>
              Get(DeviceEntry(id, info, st), k) == Get(info, k)
  {
    var t := StatusTail(st);
    Lookup3(t[0], t[1], t[2], "id");
    MergeAroundOther(Field("id", Str(id)), FieldsOf(info), t, "id");
    forall k | k != "id" && k != "connectivity" && k != "lastSeen" && k != "timestamp"
      ensures Get(DeviceEntry(id, info, st), k) == Get(info, k)
    {
      Lookup3(t[0], t[1], t[2], k);
      MergeAroundOther(Field("id", Str(id)), FieldsOf(info), t, k);
    }
  }

  /** The status fields override the registry's, the registry's override `id`. */
  lemma {:induction false} DeviceEntryFields(id: string, info: Json, st: Json)
    ensures Get(DeviceEntry(id, info, st), "connectivity") == Or(Get(st, "connectivity"), Str("Offline"))
    ensures Get(DeviceEntry(id, info, st), "lastSeen") == Or(Get(st, "lastSeen"), Or(Get(st, "timestamp"), Null))
    ensures Get(DeviceEntry(id, info, st), "timestamp") == Or(Get(st, "timestamp"), Null)
    ensures Get(DeviceEntry(id, info, st), "id") == if Has(info, "id") then Get(info, "id") else Str(id)
    ensures forall k :: k != "id" && k != "connectivity" && k != "lastSeen" && k != "timestamp" ==>
              Get(DeviceEntry(id, info, st), k) == Get(info, k)
  {
    DeviceEntryStatus(id, info, st);
    DeviceEntryInfo(id, info, st);
  }

  /** `buildDevicesList()` on the store `root`: the status partition left-joined
      onto the registry, in registry order. */
  function DevicesList(root: Json): (r: seq<Json>)
    ensures |r| == if Exists(GetPath(root, Registry)) then |FieldsOf(GetPath(root, Registry))| else 0
  {
    var devs := GetPath(root, Registry);
    var status := GetPath(root, StatusRoot);
    var stats := if Exists(status) then status else Obj([]);
    if !Exists(devs) then []
    else
      var fs := FieldsOf(devs);
      seq(|fs|, i requires 0 <= i < |fs| => DeviceEntry(fs[i].key, fs[i].val, Or(Get(stats, fs[i].key), Obj([]))))
  }

  /** One entry per registered device, none without a registry; a device with no
      status record shows as "Offline". */
  lemma {:induction false} DevicesListShape(root: Json, i: nat)
    ensures !Exists(GetPath(root, Registry)) ==> DevicesList(root) == []
    ensures Exists(GetPath(root, Registry)) ==> |DevicesList(root)| == |FieldsOf(GetPath(root, Registry))|
    ensures var fs := FieldsOf(GetPath(root, Registry));
      Exists(GetPath(root, Registry)) && i < |fs| && !Has(fs[i].val, "id") && !Exists(GetPath(root, StatusRoot) ) ==>
        Get(DevicesList(root)[i], "id") == Str(fs[i].key)
        && Get(DevicesList(root)[i], "connectivity") == Str("Offline")
  {
    var fs := FieldsOf(GetPath(root, Registry));
    if Exists(GetPath(root, Registry)) && i < |fs| {
      var status := GetPath(root, StatusRoot);
      var stats := if Exists(status) then status else Obj([]);
      DeviceEntryFields(fs[i].key, fs[i].val, Or(Get(stats, fs[i].key), Obj([])));
    }
  }

  /** Entry `i` of the list joins registry entry `i` with that device's status record. */
  lemma {:induction false} DevicesListEntry(root: Json, i: nat)
    requires Exists(GetPath(root, Registry)) && i < |FieldsOf(GetPath(root, Registry))|
    ensures var f := FieldsOf(GetPath(root, Registry))[i];
      var st := Get(GetPath(root, StatusRoot ), f.key);
      var e := DevicesList(root)[i];
      |DevicesList(root)| == |FieldsOf(GetPath(root, Registry))|
      && Get(e, "connectivity") == Or(Get(st, "connectivity"), Str("Offline"))
      && Get(e, "lastSeen") == Or(Get(st, "lastSeen"), Or(Get(st, "timestamp"), Null))
      && Get(e, "timestamp") == Or(Get(st, "timestamp"), Null)
      && Get(e, "id") == (if Has(f.val, "id") then Get(f.val, "id") else Str(f.key))
      && (forall k :: k != "id" && k != "connectivity" && k != "lastSeen" && k != "timestamp" ==> Get(e, k) == Get(f.val, k))
  {
    var f := FieldsOf(GetPath(root, Registry))[i];
    var status := GetPath(root, StatusRoot);
    var stats := if Exists(status) then status else Obj([]);
    var st := Or(Get(stats, f.key), Obj([]));
    DeviceEntryFields(f.key, f.val, st);
    assert Get(st, "connectivity") == Get(Get(status, f.key), "connectivity");
    assert Get(st, "lastSeen") == Get(Get(status, f.key), "lastSeen");
    assert Get(st, "timestamp") == Get(Get(status, f.key), "timestamp");
  }

  /** The `devicesLive` payload of a refresh. */
  function DevicesLivePayload(reason: string, devices: seq<Json>): Json {
    Obj([Field("success", Bool(true)), Field("reason", Str(reason)),
         Field("count", Num(|devices|)), Field("data", Arr(devices))])
  }

  /** The `devicesLive` payload sent to a socket that just connected. */
  function InitialPayload(devices: seq<Json>): Json {
    Obj([Field("success", Bool(true)), Field("count", Num(|devices|)), Field("data", Arr(devices))])
  }

  const FailedPayload: Json := Obj([Field("success", Bool(false)), Field("data", Arr([]))])

  /** The list a new connection is sent: the cache unless it is empty. */
  function InitialDevices(cache: seq<Json>, root: Json): (r: seq<Json>)
    ensures cache != [] ==> r == cache
    ensures cache == [] ==> r == DevicesList(root)
  {
    if |cache| > 0 then cache else DevicesList(root)
  }

  /** A presence record, as `registerDevice` and `disconnect` write it. */
  function Presence(connectivity: string, now: int): Json {
    Obj([Field("connectivity", Str(connectivity)), Field("lastSeen", Num(now)), Field("timestamp", Num(now))])
  }

  /** After a device registers, the list shows it "Online" with the time of registration. */
  lemma {:induction false} RegisteredShowsOnline(root: Json, id: string, now: int, i: nat)
    requires now != 0
    requires Exists(GetPath(root, Registry)) && i < |FieldsOf(GetPath(root, Registry))|
    requires FieldsOf(GetPath(root, Registry))[i].key == id
    ensures var e := DevicesList(SetPath(root, StatusRoot + [id], Presence("Online", now)))[i];
      Get(e, "connectivity") == Str("Online") && Get(e, "lastSeen") == Num(now)
  {
    var pres := Presence("Online", now);
    var root' := SetPath(root, StatusRoot + [id], pres);
    ReadOther(root, StatusRoot + [id], pres, Registry);
    assert GetPath(root', Registry) == GetPath(root, Registry);
    ReadBack(root, StatusRoot + [id], pres);
    GetPathAppend(root', StatusRoot, [id]);
    var st := Get(GetPath(root', StatusRoot), id);
    assert st == pres;
    var p := pres.fields;
    Lookup3(p[0], p[1], p[2], "connectivity");
    Lookup3(p[0], p[1], p[2], "lastSeen");
    assert Get(st, "connectivity") == Str("Online") && Get(st, "lastSeen") == Num(now);
    DevicesListEntry(root', i);
  }

  // ---------------------------------------------------------------------------
  // Live watchers: payloads
  // ---------------------------------------------------------------------------

  const BrosRoot: Path := ["checkOnline"]
  const SmsStatusRoot: Path := ["commandCenter", "smsStatus"]

  /** `{ uid, ...data }` for a node that exists, `null` otherwise. */
  function WithUid(uid: string, node: Json): (r: Json)
    ensures !Exists(node) ==> r == Null
    ensures Exists(node) ==> r.Obj? && Get(r, "uid") == (if Has(node, "uid") then Get(node, "uid") else Str(uid))
  {
    if Exists(node) then
      SpreadFields([Field("uid", Str(uid))], node);
      Lookup1(Field("uid", Str(uid)), "uid");
      Spread([Field("uid", Str(uid))], node)
    else Null
  }

  /** The `brosReplyUpdate` payload for the node at `checkOnline/<uid>`. */
  function BrosPayload(uid: string, node: Json): Json {
    Obj([Field("uid", Str(uid)), Field("success", Bool(true)), Field("data", WithUid(uid, node))])
  }

  /** The `smsStatusUpdate` payload for the node at `commandCenter/smsStatus/<uid>`. */
  function SmsPayload(uid: string, list: seq<Json>): Json {
    Obj([Field("uid", Str(uid)), Field("success", Bool(true)), Field("data", Arr(list))])
  }

  /** The reply of the two `*-listening started` routes. */
  function RouteReply(data: Json, message: string): Response {
    Response(200, Obj([Field("success", Bool(true)), Field("data", data), Field("message", Str(message))]))
  }

  const ServerError: Response := Response(500, Obj([Field("success", Bool(false))]))

  /** `n` copies of a message: one per listener that a change reaches. */
  function Repeat(m: Message, n: nat): (r: seq<Message>)
    ensures |r| == n
    ensures forall i :: 0 <= i < n ==> r[i] == m
  {
    seq(n, _ => m)
  }

  // ---------------------------------------------------------------------------
  // The command relay
  // ---------------------------------------------------------------------------

  /** `extractCommandData(raw)` for a node that exists: the node itself when it
      has a truthy `action`, otherwise the value under its last key, or `null`. */
  function ExtractCommand(raw: Json): (r: Json)
    ensures Truthy(Get(raw, "action")) ==> r == raw
    ensures !Truthy(Get(raw, "action")) && FieldsOf(raw) == [] ==> r == Null
    ensures !Truthy(Get(raw, "action")) && FieldsOf(raw) != [] ==>
              r == Or(FieldsOf(raw)[|FieldsOf(raw)| - 1].val, Null)
  {
    if Truthy(Get(raw, "action")) then raw
    else
      var fs := FieldsOf(raw);
      if fs == [] then Null
      else
        LookupLast(fs);
        Or(Get(raw, fs[|fs| - 1].key), Null)
  }

  /** The field written last is the one a read of its key sees. */
  lemma {:induction false} LookupLast(fs: seq<Field>)
    requires fs != []
    ensures Lookup(fs, fs[|fs| - 1].key) == Some(fs[|fs| - 1].val)
  {
    var n := |fs| - 1;
    assert fs == fs[..n] + [fs[n]];
    LookupAppend(fs[..n], fs[n], fs[n].key);
  }

  /** A queue of commands without `action` of its own yields its latest command. */
  lemma {:induction false} LastCommandWins(earlier: seq<Field>, key: string, cmd: Json)
    requires !Has(Obj(earlier + [Field(key, cmd)]), "action") && Truthy(cmd)
    ensures ExtractCommand(Obj(earlier + [Field(key, cmd)])) == cmd
  {
  }

  /** The FCM message `handleDeviceCommandChange` sends for the node
      `commandCenter/deviceCommands/<uid>`: none without a node, a command or a token. */
  function RelayedCommand(root: Json, uid: string): (out: seq<Message>)
    ensures |out| <= 1
    ensures out != [] <==>
              Exists(GetPath(root, ["commandCenter", "deviceCommands", uid]))
              && Truthy(ExtractCommand(GetPath(root, ["commandCenter", "deviceCommands", uid])))
              && Truthy(Get(GetPath(root, Registry + [uid]), "fcmToken"))
    ensures out != [] ==>
              out[0] == Push(Get(GetPath(root, Registry + [uid]), "fcmToken"), "DEVICE_COMMAND",
                             Spread([Field("uniqueid", Str(uid))],
                                    ExtractCommand(GetPath(root, ["commandCenter", "deviceCommands", uid]))))
  {
    var node := GetPath(root, ["commandCenter", "deviceCommands", uid]);
    if !Exists(node) then []
    else
      var cmd := ExtractCommand(node);
      if !Truthy(cmd) then []
      else
        var token := Get(GetPath(root, Registry + [uid]), "fcmToken");
        FcmSends(token, "DEVICE_COMMAND", Spread([Field("uniqueid", Str(uid))], cmd))
  }

  /** The `CHECK_ONLINE` push payload for a check-online record `data`. */
  function CheckOnlinePush(uid: string, data: Json): (p: Json)
    ensures Get(p, "uniqueid") == Str(uid)
    ensures Get(p, "available") == (if Truthy(Get(data, "available")) then Get(data, "available") else Str("unknown"))
    ensures Get(p, "checkedAt") == Str(if Truthy(Get(data, "checkedAt")) then JsString(Get(data, "checkedAt")) else "")
  {
    var fs := [Field("uniqueid", Str(uid)),
               Field("available", Or(Get(data, "available"), Str("unknown"))),
               Field("checkedAt", Str(JsString(Or(Get(data, "checkedAt"), Str("")))))];
    Lookup3(fs[0], fs[1], fs[2], "uniqueid");
    Lookup3(fs[0], fs[1], fs[2], "available");
    Lookup3(fs[0], fs[1], fs[2], "checkedAt");
    Obj(fs)
  }

  /** The fields `handleCheckOnlineChange` merges into `status/<uid>`. */
  function OnlineFields(now: int): seq<Field> {
    [Field("connectivity", Str("Online")), Field("lastSeen", Num(now)), Field("timestamp", Num(now))]
  }

  /** The store after a check-online reply from `uid`: the reset clock is set and
      the status record is marked online, keeping its other fields. */
  function CheckOnlineStore(root: Json, uid: string, now: int, readable: string): Json {
    var r1 := SetPath(root, ["resetCollection", uid],
                      Obj([Field("resetAt", Num(now)), Field("readable", Str(readable))]));
    ApplyWrites(r1, StatusRoot + [uid], ToWrites(OnlineFields(now)))
  }

  /** After a check-online reply the device's status reads "Online" at `now`, and
      every other field of its status record is kept. */
  lemma {:induction false} CheckOnlineMarksOnline(root: Json, uid: string, now: int, readable: string)
    ensures var st := GetPath(CheckOnlineStore(root, uid, now, readable), StatusRoot + [uid]);
      Get(st, "connectivity") == Str("Online") && Get(st, "lastSeen") == Num(now)
      && Get(st, "timestamp") == Num(now)
      && forall k :: k !in ["connectivity", "lastSeen", "timestamp"] ==>
           Get(st, k) == Get(GetPath(root, StatusRoot + [uid]), k)
  {
    var r1 := SetPath(root, ["resetCollection", uid],
                      Obj([Field("resetAt", Num(now)), Field("readable", Str(readable))]));
    assert Diverge(["resetCollection", uid], StatusRoot + [uid]);
    ReadOther(root, ["resetCollection", uid], Obj([Field("resetAt", Num(now)), Field("readable", Str(readable))]), StatusRoot + [uid]);
    var fs := OnlineFields(now);
    UpdateMerges(r1, StatusRoot + [uid], fs);
    var old_st := GetPath(root, StatusRoot + [uid]);
    assert GetPath(r1, StatusRoot + [uid]) == old_st;
    var m := Merge(FieldsOf(old_st), fs);
    assert GetPath(CheckOnlineStore(root, uid, now, readable), StatusRoot + [uid]) == Obj(m);
    Lookup3(fs[0], fs[1], fs[2], "connectivity");
    Lookup3(fs[0], fs[1], fs[2], "lastSeen");
    Lookup3(fs[0], fs[1], fs[2], "timestamp");
    assert Get(Obj(m), "connectivity") == Str("Online");
    assert Get(Obj(m), "lastSeen") == Num(now);
    assert Get(Obj(m), "timestamp") == Num(now);
    forall k | k !in ["connectivity", "lastSeen", "timestamp"] ensures Get(Obj(m), k) == Get(old_st, k) {
      Lookup3(fs[0], fs[1], fs[2], k);
    }
  }

  /** Removing nothing of the registry, a check-online reply leaves the device list's
      membership as it was. */
  lemma {:induction false} CheckOnlineKeepsRegistry(root: Json, uid: string, now: int, readable: string)
    ensures GetPath(CheckOnlineStore(root, uid, now, readable), Registry) == GetPath(root, Registry)
  {
    var r1 := SetPath(root, ["resetCollection", uid],
                      Obj([Field("resetAt", Num(now)), Field("readable", Str(readable))]));
    ReadOther(root, ["resetCollection", uid], Obj([Field("resetAt", Num(now)), Field("readable", Str(readable))]), Registry);
    var ws := ToWrites(OnlineFields(now));
    forall i | 0 <= i < |ws| ensures Diverge(StatusRoot + [uid] + ws[i].rel, Registry) {
    }
    UpdateOther(r1, StatusRoot + [uid], ws, Registry);
  }

  // ---------------------------------------------------------------------------
  // The server's state
  // ---------------------------------------------------------------------------

  class Server {
    const db: Db
    const out: Outbox
    const bros: Watchers
    const sms: Watchers
    /** `deviceSockets`: device id to the socket that registered it last. */
    var deviceSockets: map<string, string>
    /** `lastDevicesList`. */
    var lastDevicesList: seq<Json>
    /** The `currentDeviceId` of each open connection. */
    var currentDevice: map<string, Option<string>>

    predicate Valid()
      reads this, bros, sms
    {
      bros != sms && bros.root == BrosRoot && sms.root == SmsStatusRoot
      && bros.Valid() && sms.Valid()
    }

    constructor (db: Db, out: Outbox)
      ensures this.db == db && this.out == out
      ensures Valid() && bros.OnePerUid() && sms.OnePerUid()
      ensures deviceSockets == map[] && lastDevicesList == [] && currentDevice == map[]
    {
      this.db := db;
      this.out := out;
      bros := new Watchers(BrosRoot);
      sms := new Watchers(SmsStatusRoot);
      deviceSockets := map[];
      lastDevicesList := [];
      currentDevice := map[];
    }

    /** `refreshDevicesLive(reason)`: the cache becomes the freshly built list and
        every client is sent it; when building fails, nothing changes. */
    method Refresh(reason: string, fault: bool)
      modifies this`lastDevicesList, out
      ensures fault ==> lastDevicesList == old(lastDevicesList) && out.log == old(out.log)
      ensures !fault ==> lastDevicesList == DevicesList(db.root)
      ensures !fault ==> out.log == old(out.log) + [Emit(Everyone, "devicesLive", DevicesLivePayload(reason, DevicesList(db.root)))]
    {
      if !fault {
        var devices := DevicesList(db.root);
        lastDevicesList := devices;
        out.Emit(Everyone, "devicesLive", DevicesLivePayload(reason, devices));
      }
    }

    /** The `connection` handler: the new socket is sent the cached list, or a
        freshly built one when the cache is empty (`fault`: that build fails).
        The cache itself is not updated. */
    method OnConnection(socketId: string, fault: bool)
      modifies this`currentDevice, out
      ensures currentDevice == old(currentDevice)[socketId := None]
      ensures lastDevicesList == old(lastDevicesList)
      ensures out.log == old(out.log) +
        [Emit(ToSocket(socketId), "devicesLive",
              if lastDevicesList == [] && fault then FailedPayload
              else InitialPayload(InitialDevices(lastDevicesList, db.root)))]
    {
      currentDevice := currentDevice[socketId := None];
      if |lastDevicesList| > 0 {
        out.Emit(ToSocket(socketId), "devicesLive", InitialPayload(lastDevicesList));
      } else if fault {
        out.Emit(ToSocket(socketId), "devicesLive", FailedPayload);
      } else {
        out.Emit(ToSocket(socketId), "devicesLive", InitialPayload(DevicesList(db.root)));
      }
    }

    /** `registerDevice`: an id that cleans to nothing is ignored; otherwise the
        socket is recorded for the device, its status is overwritten with an
        Online record, and the change is broadcast and the list refreshed. */
    method RegisterDevice(socketId: string, rawId: Json, now: int, fault: bool)
      requires socketId in currentDevice
      modifies this`deviceSockets, this`currentDevice, this`lastDevicesList, db, out
      ensures var id := Clean(rawId);
        if id.None? || id.value == "" then
          db.root == old(db.root) && out.log == old(out.log)
          && deviceSockets == old(deviceSockets) && currentDevice == old(currentDevice)
          && lastDevicesList == old(lastDevicesList)
        else
          deviceSockets == old(deviceSockets)[id.value := socketId]
          && currentDevice == old(currentDevice)[socketId := Some(id.value)]
          && db.root == SetPath(old(db.root), StatusRoot + [id.value], Presence("Online", now))
          && out.log == old(out.log) +
               [Emit(Everyone, "deviceStatus", Obj([Field("id", Str(id.value)), Field("connectivity", Str("Online"))]))]
               + (if fault then [] else [Emit(Everyone, "devicesLive", DevicesLivePayload("deviceOnline:" + id.value, DevicesList(db.root)))])
          && lastDevicesList == (if fault then old(lastDevicesList) else DevicesList(db.root))
    {
      var id := Clean(rawId);
      if id.None? || id.value == "" {
        return;
      }
      deviceSockets := deviceSockets[id.value := socketId];
      currentDevice := currentDevice[socketId := Some(id.value)];
      db.Write(StatusRoot + [id.value], Presence("Online", now));
      out.Emit(Everyone, "deviceStatus", Obj([Field("id", Str(id.value)), Field("connectivity", Str("Online"))]));
      Refresh("deviceOnline:" + id.value, fault);
    }

    /** `disconnect`: only a socket that registered a device marks it Offline (and
        it does so even when another socket has registered the device since). */
    method Disconnect(socketId: string, now: int, fault: bool)
      requires socketId in currentDevice
      modifies this`currentDevice, this`lastDevicesList, db, out
      ensures currentDevice == old(currentDevice) - {socketId}
      ensures deviceSockets == old(deviceSockets)
      ensures old(currentDevice)[socketId].None? ==>
                db.root == old(db.root) && out.log == old(out.log) && lastDevicesList == old(lastDevicesList)
      ensures old(currentDevice)[socketId].Some? ==>
                var id := old(currentDevice)[socketId].value;
                db.root == SetPath(old(db.root), StatusRoot + [id], Presence("Offline", now))
                && out.log == old(out.log) +
                     [Emit(Everyone, "deviceStatus", Obj([Field("id", Str(id)), Field("connectivity", Str("Offline"))]))]
                     + (if fault then [] else [Emit(Everyone, "devicesLive", DevicesLivePayload("deviceOffline:" + id, DevicesList(db.root)))])
                && lastDevicesList == (if fault then old(lastDevicesList) else DevicesList(db.root))
    {
      var cur := currentDevice[socketId];
      currentDevice := currentDevice - {socketId};
      if cur.Some? {
        db.Write(StatusRoot + [cur.value], Presence("Offline", now));
        out.Emit(Everyone, "deviceStatus", Obj([Field("id", Str(cur.value)), Field("connectivity", Str("Offline"))]));
        Refresh("deviceOffline:" + cur.value, fault);
      }
    }

    /** `GET /api/brosreply/:uid`: restarts the uid's watcher and answers with the
        current record. The new listener reports the current value once. */
    method BrosReplyRoute(rawUid: string) returns (resp: Response)
      requires Valid()
      modifies bros, out
      ensures Valid()
      ensures var uid := CleanParam(rawUid);
        resp == RouteReply(WithUid(uid, GetPath(db.root, BrosRoot + [uid])), "Live listening started")
        && uid in bros.handles && bros.ListenersAt(BrosRoot + [uid]) == {bros.handles[uid]}
        && bros.handles == old(bros.handles)[uid := bros.handles[uid]]
        && out.log == old(out.log) +
             [Emit(Everyone, "brosReplyUpdate", BrosPayload(uid, GetPath(db.root, BrosRoot + [uid])))]
      ensures old(bros.OnePerUid()) ==> bros.OnePerUid()
    {
      var uid := CleanParam(rawUid);
      var node := db.Read(BrosRoot + [uid]);
      ghost var one := bros.OnePerUid();
      var h := bros.Restart(uid);
      assert bros.ListenersAt(BrosRoot + [uid]) == {h} && (one ==> bros.OnePerUid());
      out.Emit(Everyone, "brosReplyUpdate", BrosPayload(uid, node));
      resp := RouteReply(WithUid(uid, node), "Live listening started");
    }

    /** `GET /api/device/:uid/sms-status`: restarts the uid's watcher and answers
        with the sorted SMS status list. */
    method SmsStatusRoute(rawUid: string) returns (resp: Response)
      requires Valid()
      modifies sms, out
      ensures Valid()
      ensures resp == RouteReply(Arr(SmsStatusData(CleanParam(rawUid), GetPath(db.root, SmsStatusRoot + [CleanParam(rawUid)]))),
                                 "Live SMS status listening started")
      ensures out.log == old(out.log) +
        [Emit(Everyone, "smsStatusUpdate",
              SmsPayload(CleanParam(rawUid), SmsStatusData(CleanParam(rawUid), GetPath(db.root, SmsStatusRoot + [CleanParam(rawUid)]))))]
      ensures CleanParam(rawUid) in sms.handles
      ensures sms.ListenersAt(SmsStatusRoot + [CleanParam(rawUid)]) == {sms.handles[CleanParam(rawUid)]}
      ensures sms.handles == old(sms.handles)[CleanParam(rawUid) := sms.handles[CleanParam(rawUid)]]
      ensures old(sms.OnePerUid()) ==> sms.OnePerUid()
    {
      var uid := CleanParam(rawUid);
      var node := db.Read(SmsStatusRoot + [uid]);
      var list := SmsStatusList(uid, node);
      ghost var one := sms.OnePerUid();
      var h := sms.Restart(uid);
      assert sms.ListenersAt(SmsStatusRoot + [uid]) == {h} && (one ==> sms.OnePerUid());
      out.Emit(Everyone, "smsStatusUpdate", SmsPayload(uid, list));
      resp := RouteReply(Arr(list), "Live SMS status listening started");
    }

    /** `GET /api/device/:uid/sim-forward`: `stopSimWatcher` and `simWatchers` are
        never declared, so the handler stops at its first line with a
        `ReferenceError` and answers 500; nothing else happens. */
    method SimForwardRoute(rawUid: string) returns (resp: Response)
      ensures resp.status == 500 && Get(resp.body, "success") == Bool(false)
    {
      resp := ServerError;
    }

    /** A change at `checkOnline/<uid>`: every live listener there emits one
        `brosReplyUpdate`. */
    method OnBrosChange(uid: string)
      requires Valid()
      modifies out
      ensures out.log == old(out.log) +
        Repeat(Emit(Everyone, "brosReplyUpdate", BrosPayload(uid, GetPath(db.root, BrosRoot + [uid]))),
               |bros.ListenersAt(BrosRoot + [uid])|)
    {
      var node := db.Read(BrosRoot + [uid]);
      var n := |bros.ListenersAt(BrosRoot + [uid])|;
      out.log := out.log + Repeat(Emit(Everyone, "brosReplyUpdate", BrosPayload(uid, node)), n);
    }

    /** A change at `commandCenter/smsStatus/<uid>`: every live listener there emits
        one `smsStatusUpdate`. */
    method OnSmsStatusChange(uid: string)
      requires Valid()
      modifies out
      ensures out.log == old(out.log) +
        Repeat(Emit(Everyone, "smsStatusUpdate", SmsPayload(uid, SmsStatusData(uid, GetPath(db.root, SmsStatusRoot + [uid])))),
               |sms.ListenersAt(SmsStatusRoot + [uid])|)
    {
      var node := db.Read(SmsStatusRoot + [uid]);
      var list := SmsStatusList(uid, node);
      var n := |sms.ListenersAt(SmsStatusRoot + [uid])|;
      out.log := out.log + Repeat(Emit(Everyone, "smsStatusUpdate", SmsPayload(uid, list)), n);
    }

    /** `handleDeviceCommandChange` for the child `uid` of `commandCenter/deviceCommands`. */
    method OnDeviceCommand(uid: string)
      modifies out
      ensures out.log == old(out.log) + RelayedCommand(db.root, uid)
    {
      var node := db.Read(["commandCenter", "deviceCommands", uid]);
      if !Exists(node) {
        return;
      }
      var cmd := ExtractCommand(node);
      if !Truthy(cmd) {
        return;
      }
      var dev := db.Read(Registry + [uid]);
      var token := Get(dev, "fcmToken");
      if !Truthy(token) {
        return;
      }
      out.SendFcm(token, "DEVICE_COMMAND", Spread([Field("uniqueid", Str(uid))], cmd));
    }

    /** `handleCheckOnlineChange` for the child `uid` of `checkOnline`. The cached
        device list is not refreshed. */
    method OnCheckOnline(uid: string, now: int, readable: string)
      modifies db, out
      ensures var data := GetPath(old(db.root), BrosRoot + [uid]);
        if !Exists(data) then db.root == old(db.root) && out.log == old(out.log)
        else
          db.root == CheckOnlineStore(old(db.root), uid, now, readable)
          && out.log == old(out.log) +
               [Emit(Everyone, "deviceStatus",
                     Obj([Field("id", Str(uid)), Field("connectivity", Str("Online")), Field("lastSeen", Num(now))]))]
               + FcmSends(Get(GetPath(db.root, Registry + [uid]), "fcmToken"), "CHECK_ONLINE", CheckOnlinePush(uid, data))
    {
      var data := db.Read(BrosRoot + [uid]);
      if !Exists(data) {
        return;
      }
      db.Write(["resetCollection", uid], Obj([Field("resetAt", Num(now)), Field("readable", Str(readable))]));
      db.Update(StatusRoot + [uid], ToWrites(OnlineFields(now)));
      out.Emit(Everyone, "deviceStatus",
               Obj([Field("id", Str(uid)), Field("connectivity", Str("Online")), Field("lastSeen", Num(now))]));
      var dev := db.Read(Registry + [uid]);
      out.SendFcm(Get(dev, "fcmToken"), "CHECK_ONLINE", CheckOnlinePush(uid, data));
    }
  }
}
