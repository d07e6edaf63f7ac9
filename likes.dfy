/** `controllers/likeunlike.js`: one like per user and device, kept under
    `deviceLikes/<uid>/<userId>` and toggled by the like route. */
module Likes {
  import opened JsValue
  import opened Tree
  import opened Channel

  const DeviceRoot: Path := ["registeredDevices"]
  const LikesRoot: Path := ["deviceLikes"]

  /** `req.user?.userId || "admin"`. */
  function UserOf(user: Json): (u: Json)
    ensures Truthy(u)
    ensures u == (if Truthy(Get(user, "userId")) then Get(user, "userId") else Str("admin"))
  {
    Or(Get(user, "userId"), Str("admin"))
  }

  /** `deviceLikes/${uid}/${userId}`. */
  function LikePath(uid: Json, user: Json): Path {
    LikesRoot + [JsString(uid), JsString(UserOf(user))]
  }

  /** The record a like stores. */
  function LikeRecord(now: int, user: Json, uid: Json): Json {
    Obj([Field("likedAt", Num(now)), Field("userId", UserOf(user)), Field("deviceId", uid)])
  }

  function Failure(status: nat, message: string): Response {
    Response(status, Obj([Field("success", Bool(false)), Field("message", Str(message))]))
  }

  function Toggled(liked: bool): Response {
    Response(200, Obj([Field("success", Bool(true)), Field("liked", Bool(liked)),
                       Field("message", Str(if liked then "Device liked successfully" else "Device unliked successfully"))]))
  }

  /** The store after a toggle at `p`: an existing like is removed, otherwise the record is stored. */
  function AfterToggle(root: Json, p: Path, rec: Json): Json {
    if Exists(GetPath(root, p)) then SetPath(root, p, Null) else SetPath(root, p, rec)
  }

  /** `likeUnlikeDevice`: a falsy uid gets 400 and an unregistered device 404,
      with the likes untouched; otherwise the user's like on the device is
      removed if present and stored if not, and `liked` tells which. */
  method LikeUnlike(db: Db, body: Json, user: Json, now: int) returns (resp: Response)
    modifies db
    ensures !Truthy(Get(body, "uid")) ==> db.root == old(db.root) && resp == Failure(400, "Device UID is required")
    ensures Truthy(Get(body, "uid")) && !Exists(GetPath(old(db.root), DeviceRoot + [JsString(Get(body, "uid"))])) ==>
              db.root == old(db.root) && resp == Failure(404, "Device not found")
    ensures Truthy(Get(body, "uid")) && Exists(GetPath(old(db.root), DeviceRoot + [JsString(Get(body, "uid"))])) ==>
              var uid := Get(body, "uid");
              var p := LikePath(uid, user);
              db.root == AfterToggle(old(db.root), p, LikeRecord(now, user, uid))
              && resp == Toggled(!Exists(GetPath(old(db.root), p)))
  {
    var uid := Get(body, "uid");
    var userId := UserOf(user);
    if !Truthy(uid) {
      resp := Failure(400, "Device UID is required");
      return;
    }
    var device := db.Read(DeviceRoot + [JsString(uid)]);
    if !Exists(device) {
      resp := Failure(404, "Device not found");
      return;
    }
    var p := LikesRoot + [JsString(uid), JsString(userId)];
    var like := db.Read(p);
    if Exists(like) {
      db.Remove(p);
      resp := Toggled(false);
    } else {
      db.Write(p, Obj([Field("likedAt", Num(now)), Field("userId", userId), Field("deviceId", uid)]));
      resp := Toggled(true);
    }
  }

  /** A toggle flips the presence of the like it targets. */
  lemma {:induction false} ToggleFlips(root: Json, p: Path, rec: Json)
    requires p != [] && Exists(rec)
    ensures Exists(GetPath(AfterToggle(root, p, rec), p)) <==> !Exists(GetPath(root, p))
  {
    if Exists(GetPath(root, p)) {
      ReadBack(root, p, Null);
    } else {
      ReadBack(root, p, rec);
    }
  }

  /** Two toggles by the same user restore the like's presence. */
  lemma {:induction false} ToggleTwice(root: Json, p: Path, rec: Json, rec': Json)
    requires p != [] && Exists(rec) && Exists(rec')
    ensures Exists(GetPath(AfterToggle(AfterToggle(root, p, rec), p, rec'), p)) <==> Exists(GetPath(root, p))
  {
    ToggleFlips(root, p, rec);
    ToggleFlips(AfterToggle(root, p, rec), p, rec');
  }

  /** A toggle changes only its own like: the registry, other devices' likes and
      other users' likes read as before. */
  lemma {:induction false} ToggleOnlyThatLike(root: Json, p: Path, rec: Json, q: Path)
    requires Diverge(p, q)
    ensures GetPath(AfterToggle(root, p, rec), q) == GetPath(root, q)
  {
    if Exists(GetPath(root, p)) {
      ReadOther(root, p, Null, q);
    } else {
      ReadOther(root, p, rec, q);
    }
  }

  /** A like path parts ways with the registry and with any other user's like. */
  lemma {:induction false} LikePathDiverges(uid: Json, user: Json, uid': Json, other: string)
    ensures Diverge(LikePath(uid, user), DeviceRoot + [JsString(uid')])
    ensures other != JsString(UserOf(user)) ==> Diverge(LikePath(uid, user), LikesRoot + [JsString(uid), other])
  {
    if other != JsString(UserOf(user)) {
      DivergeSiblings(LikesRoot + [JsString(uid)], JsString(UserOf(user)), other, [], []);
      assert LikesRoot + [JsString(uid)] + [JsString(UserOf(user))] + [] == LikePath(uid, user);
      assert LikesRoot + [JsString(uid)] + [other] + [] == LikesRoot + [JsString(uid), other];
    }
  }

  /** A device stays registered across a toggle, so a second toggle finds it. */
  lemma {:induction false} ToggleKeepsDevice(root: Json, body: Json, user: Json, now: int)
    ensures var uid := Get(body, "uid");
      var after := AfterToggle(root, LikePath(uid, user), LikeRecord(now, user, uid));
      GetPath(after, DeviceRoot + [JsString(uid)]) == GetPath(root, DeviceRoot + [JsString(uid)])
  {
    var uid := Get(body, "uid");
    LikePathDiverges(uid, user, uid, "");
    ToggleOnlyThatLike(root, LikePath(uid, user), LikeRecord(now, user, uid), DeviceRoot + [JsString(uid)]);
  }

  // ---------------------------------------------------------------------------
  // getDeviceLikes
  // ---------------------------------------------------------------------------

  /** `Object.keys(likesData).length` for the device's likes (0 when there are none). */
  function TotalLikes(root: Json, uid: string): nat {
    var node := GetPath(root, LikesRoot + [uid]);
    if Exists(node) then |FieldsOf(node)| else 0
  }

  /** `!!likesData[userId]`. */
  predicate LikedBy(root: Json, uid: string, user: Json) {
    var node := GetPath(root, LikesRoot + [uid]);
    Exists(node) && Truthy(Get(node, JsString(UserOf(user))))
  }

  /** `getDeviceLikes`: an empty uid gets 400; otherwise the number of likes and
      whether the user is among them (0 and false when there are none). */
  function DeviceLikes(root: Json, uid: string, user: Json): (r: Response)
    ensures uid == [] ==> r == Failure(400, "Device UID is required")
    ensures uid != [] ==>
              r.status == 200
              && Get(r.body, "likedByUser") == Bool(LikedBy(root, uid, user))
              && Get(r.body, "totalLikes") == Num(TotalLikes(root, uid))
    ensures uid != [] && !Exists(GetPath(root, LikesRoot + [uid])) ==>
              Get(r.body, "likedByUser") == Bool(false) && Get(r.body, "totalLikes") == Num(0)
  {
    if uid == [] then Failure(400, "Device UID is required")
    else
      var fs := [Field("success", Bool(true)), Field("likedByUser", Bool(LikedBy(root, uid, user))),
                 Field("totalLikes", Num(TotalLikes(root, uid))), Field("uid", Str(uid))];
      Lookup4(fs[0], fs[1], fs[2], fs[3], "likedByUser");
      Lookup4(fs[0], fs[1], fs[2], fs[3], "totalLikes");
      Response(200, Obj(fs))
  }

  /** After a toggle the like listing reports the user as liking the device
      exactly when they did not before. */
  lemma {:induction false} ToggleFlipsLikedBy(root: Json, uid: Json, user: Json, now: int)
    ensures var p := LikePath(uid, user);
      var after := AfterToggle(root, p, LikeRecord(now, user, uid));
      LikedBy(after, JsString(uid), user) <==> !Exists(GetPath(root, p))
  {
    var p := LikePath(uid, user);
    var rec := LikeRecord(now, user, uid);
    var after := AfterToggle(root, p, rec);
    var base := LikesRoot + [JsString(uid)];
    var u := JsString(UserOf(user));
    assert p == base + [u];
    ToggleFlips(root, p, rec);
    GetPathAppend(after, base, [u]);
    var node := GetPath(after, base);
    assert GetPath(after, p) == Get(node, u);
    ExistsBelow(node, [u]);
    if Exists(GetPath(root, p)) {
      ReadBack(root, p, Null);
      assert Get(node, u) == Null;
    } else {
      ReadBack(root, p, rec);
      assert Get(node, u) == rec && Truthy(rec);
    }
  }

  /** Liking a device the user had no entry for raises the count by one. */
  lemma {:induction false} LikeAddsOne(root: Json, uid: Json, user: Json, now: int)
    requires !Has(GetPath(root, LikesRoot + [JsString(uid)]), JsString(UserOf(user)))
    ensures var after := AfterToggle(root, LikePath(uid, user), LikeRecord(now, user, uid));
      TotalLikes(after, JsString(uid)) == TotalLikes(root, JsString(uid)) + 1
  {
    var p := LikePath(uid, user);
    var rec := LikeRecord(now, user, uid);
    var base := LikesRoot + [JsString(uid)];
    var u := JsString(UserOf(user));
    var node := GetPath(root, base);
    assert p == base + [u];
    GetPathAppend(root, base, [u]);
    assert GetPath(root, p) == Null;
    var node' := SetPath(node, [u], rec);
    assert Exists(rec);
    assert [u][1..] == [] && [u][0] == u;
    assert SetPath(Get(node, u), [], rec) == rec;
    assert SetChild(FieldsOf(node), u, rec) == Put(FieldsOf(node), u, rec);
    assert node' == Obj(SetChild(FieldsOf(node), u, SetPath(Get(node, u), [], rec)));
    assert Exists(node') by {
      assert |Keys(node'.fields)| == |Keys(FieldsOf(node))| + 1;
    }
    ReadSubtree(root, base, [u], rec);
    assert |Keys(node'.fields)| == |Keys(FieldsOf(node))| + 1;
    if !Exists(node) {
      assert FieldsOf(node) == [];
    }
  }
}
