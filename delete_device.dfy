/** `controllers/deleteDevice.js`: removing a device removes its entry from
    the registry, its presence record, its likes, its heartbeat and its
    command node; all other data stays. */
module DeleteDevice {
  import opened JsValue
  import opened Tree
  import opened Channel

  const Registry := "registeredDevices"
  const Status := "status"
  const LikesTable := "deviceLikes"
  const Heartbeat := "deviceHeartbeat"
  const Commands := "deviceCommands"

  /** The five paths the cascade clears, in the order the removals are issued. */
  function Cleared(uid: string): seq<Path> {
    [[Registry, uid], [Status, uid], [LikesTable, uid], [Heartbeat, uid], [Commands, uid]]
  }

  /** `deviceName || model || brand || "Unknown"`. */
  function DeviceName(data: Json): (name: Json)
    ensures Truthy(name)
    ensures name == Get(data, "deviceName") || name == Get(data, "model") || name == Get(data, "brand") || name == Str("Unknown")
    ensures Truthy(Get(data, "deviceName")) ==> name == Get(data, "deviceName")
    ensures !Truthy(Get(data, "deviceName")) && !Truthy(Get(data, "model")) && !Truthy(Get(data, "brand")) ==> name == Str("Unknown")
  {
    Or(Or(Or(Get(data, "deviceName"), Get(data, "model")), Get(data, "brand")), Str("Unknown"))
  }

  /** The store after the five removals. They touch disjoint paths, so issuing
      them together, as `Promise.all` does, gives the same store as issuing them
      in turn. */
  function Cascade(root: Json, uid: string): Json {
    var r1 := SetPath(root, [Registry, uid], Null);
    var r2 := SetPath(r1, [Status, uid], Null);
    var r3 := SetPath(r2, [LikesTable, uid], Null);
    var r4 := SetPath(r3, [Heartbeat, uid], Null);
    SetPath(r4, [Commands, uid], Null)
  }

  function Failure(status: nat, message: string): Response {
    Response(status, Obj([Field("success", Bool(false)), Field("message", Str(message))]))
  }

  function Deleted(uid: string, name: Json): Response {
    Response(200, Obj([Field("success", Bool(true)), Field("message", Str("Device deleted successfully")),
                       Field("deletedDevice", Obj([Field("uid", Str(uid)), Field("name", name)]))]))
  }

  /** The `deviceDeleted` broadcast. */
  function DeletedEvent(uid: string, user: Json, name: Json, now: int): Message {
    Emit(Everyone, "deviceDeleted",
         Obj([Field("uid", Str(uid)), Field("deletedBy", Or(Get(user, "userId"), Str("admin"))),
              Field("deviceName", name), Field("timestamp", Num(now))]))
  }

  /** `deleteDevice`: an empty uid gets 400 and an unregistered device 404, with
      nothing removed and nothing emitted. Otherwise the cascade runs, every
      client is told when the socket server is attached (`hasIo`), and the reply
      names the device. */
  method Delete(db: Db, out: Outbox, uid: string, user: Json, now: int, hasIo: bool) returns (resp: Response)
    modifies db, out
    ensures uid == [] ==> db.root == old(db.root) && out.log == old(out.log) && resp == Failure(400, "Device UID is required")
    ensures uid != [] && !Exists(GetPath(old(db.root), [Registry, uid])) ==>
              db.root == old(db.root) && out.log == old(out.log) && resp == Failure(404, "Device not found")
    ensures uid != [] && Exists(GetPath(old(db.root), [Registry, uid])) ==>
              var name := DeviceName(GetPath(old(db.root), [Registry, uid]));
              db.root == Cascade(old(db.root), uid)
              && out.log == old(out.log) + (if hasIo then [DeletedEvent(uid, user, name, now)] else [])
              && resp == Deleted(uid, name)
  {
    if uid == [] {
      resp := Failure(400, "Device UID is required");
      return;
    }
    var device := db.Read([Registry, uid]);
    if !Exists(device) {
      resp := Failure(404, "Device not found");
      return;
    }
    var name := DeviceName(device);
    db.Remove([Registry, uid]);
    db.Remove([Status, uid]);
    db.Remove([LikesTable, uid]);
    db.Remove([Heartbeat, uid]);
    db.Remove([Commands, uid]);
    if hasIo {
      out.Emit(Everyone, "deviceDeleted",
               Obj([Field("uid", Str(uid)), Field("deletedBy", Or(Get(user, "userId"), Str("admin"))),
                    Field("deviceName", name), Field("timestamp", Num(now))]));
    }
    resp := Deleted(uid, name);
  }

  /** Removing the paths `ps` one after the other. */
  function RemoveAll(j: Json, ps: seq<Path>): Json
    decreases |ps|
  {
    if ps == [] then j else RemoveAll(SetPath(j, ps[0], Null), ps[1..])
  }

  lemma {:induction false} CascadeIsRemoveAll(root: Json, uid: string)
    ensures Cascade(root, uid) == RemoveAll(root, Cleared(uid))
  {
    var p0, p1, p2, p3, p4 := [Registry, uid], [Status, uid], [LikesTable, uid], [Heartbeat, uid], [Commands, uid];
    var r1 := SetPath(root, p0, Null);
    var r2 := SetPath(r1, p1, Null);
    var r3 := SetPath(r2, p2, Null);
    var r4 := SetPath(r3, p3, Null);
    var r5 := SetPath(r4, p4, Null);
    assert RemoveAll(r5, []) == r5;
    assert RemoveAll(r4, [p4]) == r5 by { assert [p4][1..] == []; }
    assert RemoveAll(r3, [p3, p4]) == r5 by { assert [p3, p4][1..] == [p4]; }
    assert RemoveAll(r2, [p2, p3, p4]) == r5 by { assert [p2, p3, p4][1..] == [p3, p4]; }
    assert RemoveAll(r1, [p1, p2, p3, p4]) == r5 by { assert [p1, p2, p3, p4][1..] == [p2, p3, p4]; }
    assert RemoveAll(root, [p0, p1, p2, p3, p4]) == r5 by { assert [p0, p1, p2, p3, p4][1..] == [p1, p2, p3, p4]; }
  }

  /** Removals leave every path that parts ways with all of them as it was. */
  lemma {:induction false} RemoveAllKeeps(j: Json, ps: seq<Path>, q: Path)
    requires forall i :: 0 <= i < |ps| ==> Diverge(ps[i], q)
    ensures GetPath(RemoveAll(j, ps), q) == GetPath(j, q)
    decreases |ps|
  {
    if ps != [] {
      ReadOther(j, ps[0], Null, q);
      RemoveAllKeeps(SetPath(j, ps[0], Null), ps[1..], q);
    }
  }

  /** Paths that start with different keys part ways. */
  predicate FirstKeysDistinct(ps: seq<Path>) {
    (forall a :: 0 <= a < |ps| ==> ps[a] != [])
    && forall a, b :: 0 <= a < b < |ps| ==> ps[a][0] != ps[b][0]
  }

  /** Each of a run of removals of paths with distinct first keys is still in
      effect at the end. */
  lemma {:induction false} RemoveAllClears(j: Json, ps: seq<Path>, i: nat)
    requires i < |ps| && FirstKeysDistinct(ps)
    ensures GetPath(RemoveAll(j, ps), ps[i]) == Null
    decreases |ps|
  {
    var j' := SetPath(j, ps[0], Null);
    var rest := ps[1..];
    if i == 0 {
      ReadBack(j, ps[0], Null);
      forall b | 0 <= b < |rest| ensures Diverge(rest[b], ps[0]) {
        assert rest[b] == ps[b + 1];
        assert rest[b][0] != ps[0][0];
      }
      RemoveAllKeeps(j', rest, ps[0]);
    } else {
      assert FirstKeysDistinct(rest) by {
        forall a | 0 <= a < |rest| ensures rest[a] == ps[a + 1] {
        }
      }
      RemoveAllClears(j', rest, i - 1);
    }
  }

  /** Any path that parts ways with all five cleared paths is left as it was. */
  lemma {:induction false} CascadeKeepsOthers(root: Json, uid: string, q: Path)
    requires forall i :: 0 <= i < |Cleared(uid)| ==> Diverge(Cleared(uid)[i], q)
    ensures GetPath(Cascade(root, uid), q) == GetPath(root, q)
  {
    CascadeIsRemoveAll(root, uid);
    RemoveAllKeeps(root, Cleared(uid), q);
  }

  /** After the cascade the device is gone from all five tables. */
  lemma {:induction false} CascadeRemoves(root: Json, uid: string)
    ensures forall i :: 0 <= i < |Cleared(uid)| ==> GetPath(Cascade(root, uid), Cleared(uid)[i]) == Null
  {
    var c := Cleared(uid);
    CascadeIsRemoveAll(root, uid);
    ClearedDistinct(uid);
    forall i | 0 <= i < |c| ensures GetPath(RemoveAll(root, c), c[i]) == Null {
      RemoveAllClears(root, c, i);
    }
  }

  lemma ClearedDistinct(uid: string)
    ensures FirstKeysDistinct(Cleared(uid))
  {
  }

  /** A cleared path of one device parts ways with everything under another device's entry. */
  lemma {:induction false} PairApart(t: string, t': string, uid: string, other: string, q: Path)
    requires uid != other
    ensures Diverge([t, uid], [t', other] + q)
  {
    var p := [t', other] + q;
    assert p[0] == t' && p[1..] == [other] + q;
    if t == t' {
      DivergeSiblings([], uid, other, [], q);
      assert [t, uid][1..] == [] + [uid] + [];
    }
  }

  /** Nothing else goes: other devices' entries in the five tables ... */
  lemma {:induction false} CascadeKeepsOtherDevices(root: Json, uid: string, other: string, q: Path)
    requires other != uid
    ensures forall i :: 0 <= i < |Cleared(other)| ==>
              GetPath(Cascade(root, uid), Cleared(other)[i] + q) == GetPath(root, Cleared(other)[i] + q)
  {
    var c, d := Cleared(uid), Cleared(other);
    forall i | 0 <= i < |d| ensures GetPath(Cascade(root, uid), d[i] + q) == GetPath(root, d[i] + q) {
      forall j | 0 <= j < |c| ensures Diverge(c[j], d[i] + q) {
        PairApart(c[j][0], d[i][0], uid, other, q);
        assert c[j] == [c[j][0], uid] && d[i] == [d[i][0], other];
      }
      CascadeKeepsOthers(root, uid, d[i] + q);
    }
  }

  /** ... and, for the same device, the command queue the relay watches under
      `commandCenter/deviceCommands` and the check-online record stay in place. */
  lemma {:induction false} CascadeKeepsRelayAndCheck(root: Json, uid: string, q: Path)
    ensures GetPath(Cascade(root, uid), ["commandCenter", "deviceCommands", uid] + q)
            == GetPath(root, ["commandCenter", "deviceCommands", uid] + q)
    ensures GetPath(Cascade(root, uid), ["checkOnline", uid] + q) == GetPath(root, ["checkOnline", uid] + q)
  {
    var cc := ["commandCenter", "deviceCommands", uid] + q;
    assert cc[0] == "commandCenter";
    CascadeKeepsOthers(root, uid, cc);
    var k := ["checkOnline", uid] + q;
    assert k[0] == "checkOnline";
    CascadeKeepsOthers(root, uid, k);
  }
}
