/** `routes/loginRouter.js`: the single admin password under
    `config/adminPassword`, set by the first login, and the admin's session
    table under `sessions/ADMIN/<sessionId>`. Session ids and tokens come from
    the uuid and JWT libraries and are parameters here. */
module Login {
  import opened JsValue
  import opened Tree
  import opened Channel
  import opened Lists

  const PasswordPath: Path := ["config", "adminPassword"]
  const AdminUser: string := "ADMIN"
  const SessionsPath: Path := ["sessions", "ADMIN"]

  /** The record a login stores for its new session. */
  function SessionRecord(now: int, ip: string, userAgent: Json): Json {
    Obj([Field("isActive", Bool(true)), Field("createdAt", Num(now)), Field("ip", Str(ip)),
         Field("userAgent", Or(userAgent, Str("unknown")))])
  }

  /** `{ sessionId: key, ...session }`. */
  function SessionEntry(f: Field): Json {
    Spread([Field("sessionId", Str(f.key))], f.val)
  }

  /** Login's test: a truthy `isActive`. */
  predicate ActiveFlag(v: Json) {
    Truthy(Get(v, "isActive"))
  }

  /** The `/sessions` test: `isActive === true`. */
  predicate StrictlyActive(v: Json) {
    StrictEq(Get(v, "isActive"), Bool(true))
  }

  /** The admin's sessions, when the node exists. */
  function Sessions(root: Json): seq<Field> {
    var node := GetPath(root, SessionsPath);
    if Exists(node) then FieldsOf(node) else []
  }

  /** The `activeSessions` of a login reply. */
  function LoginList(root: Json): seq<Json> {
    Select(Sessions(root), ActiveFlag, SessionEntry)
  }

  /** The `activeSessions` of `GET /sessions`. */
  function ListedSessions(root: Json): seq<Json> {
    Select(Sessions(root), StrictlyActive, SessionEntry)
  }

  function Reply(status: nat, success: bool, message: string): Response {
    Response(status, Obj([Field("success", Bool(success)), Field("message", Str(message))]))
  }

  function LoginReply(known: bool, token: string, sessionId: string, active: seq<Json>): Response {
    Response(200, Obj([Field("success", Bool(true)),
                       Field("message", Str(if known then "Login successful" else "Password created and logged in")),
                       Field("token", Str(token)), Field("sessionId", Str(sessionId)), Field("activeSessions", Arr(active))]))
  }

  /** The store after a successful login: the password set if none was stored,
      then the new session written. */
  function AfterLogin(root: Json, password: Json, sessionId: string, record: Json): Json {
    var r1 := if Exists(GetPath(root, PasswordPath)) then root else SetPath(root, PasswordPath, password);
    SetPath(r1, SessionsPath + [sessionId], record)
  }

  /** `POST /`: a falsy password gets 400; with no stored password the given one
      is stored; a password that differs (`!==`) from the stored one gets 401.
      Otherwise a new active session is written and the reply lists the active
      sessions. In the rejected cases the store is left alone. */
  method Login(db: Db, body: Json, sessionId: string, token: string, now: int, ip: string, userAgent: Json)
    returns (resp: Response)
    modifies db
    ensures !Truthy(Get(body, "password")) ==>
              db.root == old(db.root) && resp == Reply(400, false, "Password required")
    ensures Truthy(Get(body, "password")) && Exists(GetPath(old(db.root), PasswordPath))
            && !StrictEq(Get(body, "password"), GetPath(old(db.root), PasswordPath)) ==>
              db.root == old(db.root) && resp == Reply(401, false, "Wrong password")
    ensures Truthy(Get(body, "password"))
            && (!Exists(GetPath(old(db.root), PasswordPath)) || StrictEq(Get(body, "password"), GetPath(old(db.root), PasswordPath))) ==>
              db.root == AfterLogin(old(db.root), Get(body, "password"), sessionId, SessionRecord(now, ip, userAgent))
              && resp == LoginReply(Exists(GetPath(old(db.root), PasswordPath)), token, sessionId, LoginList(db.root))
  {
    var password := Get(body, "password");
    if !Truthy(password) {
      resp := Reply(400, false, "Password required");
      return;
    }
    var saved := db.Read(PasswordPath);
    if !Exists(saved) {
      db.Write(PasswordPath, password);
    } else if !StrictEq(password, saved) {
      resp := Reply(401, false, "Wrong password");
      return;
    }
    ghost var r1 := db.root;
    db.Write(SessionsPath + [sessionId], SessionRecord(now, ip, userAgent));
    assert db.root == AfterLogin(old(db.root), password, sessionId, SessionRecord(now, ip, userAgent));
    var node := db.Read(SessionsPath);
    var active: seq<Json> := [];
    if Exists(node) {
      active := PushSelected([], FieldsOf(node), ActiveFlag, SessionEntry);
      assert Sessions(db.root) == FieldsOf(node);
      assert active == Select(FieldsOf(node), ActiveFlag, SessionEntry);
    }
    assert active == LoginList(db.root);
    resp := LoginReply(Exists(saved), token, sessionId, active);
  }

  /** After a successful login the new session is stored, active, and listed in
      the login reply. */
  lemma {:induction false} LoginListsNewSession(root: Json, password: Json, sessionId: string, now: int, ip: string, userAgent: Json)
    ensures var rec := SessionRecord(now, ip, userAgent);
      var after := AfterLogin(root, password, sessionId, rec);
      GetPath(after, SessionsPath + [sessionId]) == rec
      && ActiveFlag(rec)
      && SessionEntry(Field(sessionId, rec)) in LoginList(after)
  {
    var rec := SessionRecord(now, ip, userAgent);
    var r1 := if Exists(GetPath(root, PasswordPath)) then root else SetPath(root, PasswordPath, password);
    var after := SetPath(r1, SessionsPath + [sessionId], rec);
    assert Get(rec, "isActive") == Bool(true) by {
      Lookup4(rec.fields[0], rec.fields[1], rec.fields[2], rec.fields[3], "isActive");
    }
    ReadBack(r1, SessionsPath + [sessionId], rec);
    StoredActiveListed(after, sessionId, rec);
  }

  /** An active session stored under `sessions/<id>` is in a login's list. */
  lemma {:induction false} StoredActiveListed(root: Json, sessionId: string, rec: Json)
    requires GetPath(root, SessionsPath + [sessionId]) == rec && ActiveFlag(rec)
    ensures SessionEntry(Field(sessionId, rec)) in LoginList(root)
  {
    GetPathAppend(root, SessionsPath, [sessionId]);
    var node := GetPath(root, SessionsPath);
    assert Get(node, sessionId) == rec;
    ExistsBelow(node, [sessionId]);
    assert Lookup(FieldsOf(node), sessionId) == Some(rec);
    LookupFound(FieldsOf(node), sessionId);
    SelectMembers(FieldsOf(node), ActiveFlag, SessionEntry, SessionEntry(Field(sessionId, rec)));
  }

  /** The first login stores the password it was given (a value the store keeps). */
  lemma {:induction false} FirstLoginStoresPassword(root: Json, password: Json, sessionId: string, record: Json)
    requires !Exists(GetPath(root, PasswordPath))
    ensures GetPath(AfterLogin(root, password, sessionId, record), PasswordPath) == if Exists(password) then password else Null
  {
    var r1 := SetPath(root, PasswordPath, password);
    ReadBack(root, PasswordPath, password);
    assert Diverge(SessionsPath + [sessionId], PasswordPath);
    ReadOther(r1, SessionsPath + [sessionId], record, PasswordPath);
  }

  /** After the first login with a string password, a later login passes the
      password check exactly when it gives the same string. */
  lemma {:induction false} FirstPasswordDecides(root: Json, pw: string, sessionId: string, record: Json, later: Json)
    requires !Exists(GetPath(root, PasswordPath)) && pw != ""
    ensures var saved := GetPath(AfterLogin(root, Str(pw), sessionId, record), PasswordPath);
      Exists(saved) && (StrictEq(later, saved) <==> later == Str(pw))
  {
    FirstLoginStoresPassword(root, Str(pw), sessionId, record);
  }

  // ---------------------------------------------------------------------------
  // Logout
  // ---------------------------------------------------------------------------

  /** `updates[key + "/isActive"] = false` for every session. */
  function DeactivateAll(fs: seq<Field>): (ws: seq<Write>)
    ensures |ws| == |fs|
    ensures forall i :: 0 <= i < |fs| ==> ws[i] == Write([fs[i].key, "isActive"], Bool(false))
  {
    seq(|fs|, i requires 0 <= i < |fs| => Write([fs[i].key, "isActive"], Bool(false)))
  }

  /** The `forEach` that fills `updates`. */
  method Deactivations(fs: seq<Field>) returns (ws: seq<Write>)
    ensures ws == DeactivateAll(fs)
  {
    ws := [];
    var i := 0;
    while i < |fs|
      invariant 0 <= i <= |fs|
      invariant |ws| == i
      invariant forall k :: 0 <= k < i ==> ws[k] == Write([fs[k].key, "isActive"], Bool(false))
    {
      ws := ws + [Write([fs[i].key, "isActive"], Bool(false))];
      i := i + 1;
    }
  }

  /** The store after logging out of every session. */
  function AfterLogoutAll(root: Json): Json {
    if Exists(GetPath(root, SessionsPath)) then ApplyWrites(root, SessionsPath, DeactivateAll(Sessions(root))) else root
  }

  /** The store after logging out of one session. */
  function AfterLogoutOne(root: Json, sessionId: string): Json {
    ApplyWrites(root, SessionsPath + [sessionId], [Write(["isActive"], Bool(false))])
  }

  /** `POST /logout`: with `allDevices`, every session is marked inactive. Without
      it, a missing session id gets 400, and so does a session that is absent or
      inactive, leaving the store alone; otherwise that session is marked inactive. */
  method Logout(db: Db, body: Json) returns (resp: Response)
    modifies db
    ensures Truthy(Get(body, "allDevices")) ==>
              db.root == AfterLogoutAll(old(db.root)) && resp == Reply(200, true, "Logged out from all devices")
    ensures !Truthy(Get(body, "allDevices")) && !Truthy(Get(body, "sessionId")) ==>
              db.root == old(db.root) && resp == Reply(400, false, "Session ID required")
    ensures !Truthy(Get(body, "allDevices")) && Truthy(Get(body, "sessionId")) ==>
              var sid := JsString(Get(body, "sessionId"));
              var s := GetPath(old(db.root), SessionsPath + [sid]);
              if !Exists(s) || !ActiveFlag(s) then
                db.root == old(db.root) && resp == Reply(400, false, "Session already inactive or invalid")
              else db.root == AfterLogoutOne(old(db.root), sid) && resp == Reply(200, true, "Logged out successfully")
  {
    if Truthy(Get(body, "allDevices")) {
      var node := db.Read(SessionsPath);
      if Exists(node) {
        var ws := Deactivations(FieldsOf(node));
        db.Update(SessionsPath, ws);
      }
      resp := Reply(200, true, "Logged out from all devices");
      return;
    }
    var sessionId := Get(body, "sessionId");
    if !Truthy(sessionId) {
      resp := Reply(400, false, "Session ID required");
      return;
    }
    var sid := JsString(sessionId);
    var s := db.Read(SessionsPath + [sid]);
    if !Exists(s) || !ActiveFlag(s) {
      resp := Reply(400, false, "Session already inactive or invalid");
      return;
    }
    db.Update(SessionsPath + [sid], [Write(["isActive"], Bool(false))]);
    resp := Reply(200, true, "Logged out successfully");
  }

  /** Flag writes to sessions other than `k` stay clear of everything under `k`. */
  lemma {:induction false} FlagWritesMiss(base: Path, ws: seq<Write>, k: string, tail: Path)
    requires forall i :: 0 <= i < |ws| ==> |ws[i].rel| == 2 && ws[i].rel[1] == "isActive" && ws[i].rel[0] != k
    ensures forall i :: 0 <= i < |ws| ==> Diverge(base + ws[i].rel, base + [k] + tail)
  {
    forall i | 0 <= i < |ws| ensures Diverge(base + ws[i].rel, base + [k] + tail) {
      var r := ws[i].rel;
      DivergeSiblings(base, r[0], k, ["isActive"], tail);
      assert base + [r[0]] + ["isActive"] == base + r;
    }
  }

  /** Writes of `false` to `isActive` of sessions: each targeted session ends
      with `isActive` false, whatever comes after. */
  lemma {:induction false} DeactivatedStaysFalse(j: Json, base: Path, ws: seq<Write>, k: string)
    requires forall i :: 0 <= i < |ws| ==> |ws[i].rel| == 2 && ws[i].rel[1] == "isActive" && ws[i].val == Bool(false)
    requires exists i :: 0 <= i < |ws| && ws[i].rel[0] == k
    ensures GetPath(ApplyWrites(j, base, ws), base + [k, "isActive"]) == Bool(false)
    decreases |ws|
  {
    var w := ws[0];
    var j' := SetPath(j, base + w.rel, w.val);
    assert ApplyWrites(j, base, ws) == ApplyWrites(j', base, ws[1..]);
    var rest := ws[1..];
    if exists i :: 0 <= i < |rest| && rest[i].rel[0] == k {
      DeactivatedStaysFalse(j', base, rest, k);
    } else {
      var i :| 0 <= i < |ws| && ws[i].rel[0] == k;
      assert i == 0;
      assert w.rel == [k, "isActive"];
      ReadBack(j, base + w.rel, w.val);
      FlagWritesMiss(base, rest, k, ["isActive"]);
      assert base + [k] + ["isActive"] == base + [k, "isActive"];
      UpdateOther(j', base, rest, base + [k, "isActive"]);
    }
  }

  /** After logging out of all devices, no session under the admin is active:
      neither an existing one nor any other id. */
  lemma {:induction false} LogoutAllEndsEverySession(root: Json, k: string)
    ensures !ActiveFlag(GetPath(AfterLogoutAll(root), SessionsPath + [k]))
  {
    var node := GetPath(root, SessionsPath);
    var after := AfterLogoutAll(root);
    GetPathAppend(after, SessionsPath + [k], ["isActive"]);
    assert SessionsPath + [k] + ["isActive"] == SessionsPath + [k, "isActive"];
    if !Exists(node) {
      GetPathAppend(root, SessionsPath, [k]);
      GetPathNotExists(node, [k]);
    } else {
      var fs := FieldsOf(node);
      if exists i :: 0 <= i < |fs| && fs[i].key == k {
        var i :| 0 <= i < |fs| && fs[i].key == k;
        LogoutAllClearsStored(root, k, i);
      } else {
        LogoutAllMissing(root, k);
      }
    }
  }

  /** A stored session ends with `isActive` false after logging out of all. */
  lemma {:induction false} LogoutAllClearsStored(root: Json, k: string, i: nat)
    requires Exists(GetPath(root, SessionsPath))
    requires i < |Sessions(root)| && Sessions(root)[i].key == k
    ensures GetPath(AfterLogoutAll(root), SessionsPath + [k, "isActive"]) == Bool(false)
  {
    var ws := DeactivateAll(Sessions(root));
    assert ws[i].rel[0] == k;
    DeactivatedStaysFalse(root, SessionsPath, ws, k);
  }

  /** A session id that is not stored stays absent after logging out of all. */
  lemma {:induction false} LogoutAllMissing(root: Json, k: string)
    requires Exists(GetPath(root, SessionsPath))
    requires forall i :: 0 <= i < |Sessions(root)| ==> Sessions(root)[i].key != k
    ensures !Exists(GetPath(AfterLogoutAll(root), SessionsPath + [k]))
  {
    var fs := Sessions(root);
    var ws := DeactivateAll(fs);
    FlagWritesMiss(SessionsPath, ws, k, []);
    assert SessionsPath + [k] + [] == SessionsPath + [k];
    UpdateOther(root, SessionsPath, ws, SessionsPath + [k]);
    GetPathAppend(root, SessionsPath, [k]);
    LookupKeys(fs, k);
  }

  /** Logging out of one active session marks it inactive, keeps its other
      fields, and leaves every other session as it was. */
  lemma {:induction false} LogoutOneOnlyThatSession(root: Json, sid: string, other: string)
    requires other != sid
    requires ActiveFlag(GetPath(root, SessionsPath + [sid]))
    ensures var s := GetPath(root, SessionsPath + [sid]);
      var s' := GetPath(AfterLogoutOne(root, sid), SessionsPath + [sid]);
      Get(s', "isActive") == Bool(false)
      && (forall k | k != "isActive" :: Get(s', k) == Get(s, k))
    ensures GetPath(AfterLogoutOne(root, sid), SessionsPath + [other]) == GetPath(root, SessionsPath + [other])
  {
    var fs := [Field("isActive", Bool(false))];
    assert ToWrites(fs) == [Write(["isActive"], Bool(false))];
    UpdateMerges(root, SessionsPath + [sid], fs);
    Lookup1(fs[0], "isActive");
    forall k | k != "isActive" ensures Lookup(fs, k).None? {
      Lookup1(fs[0], k);
    }
    DivergeSiblings(SessionsPath, sid, other, ["isActive"], []);
    assert SessionsPath + [sid] + ["isActive"] == SessionsPath + [sid] + Write(["isActive"], Bool(false)).rel;
    assert SessionsPath + [other] + [] == SessionsPath + [other];
    UpdateOther(root, SessionsPath + [sid], [Write(["isActive"], Bool(false))], SessionsPath + [other]);
  }

  // ---------------------------------------------------------------------------
  // Listing
  // ---------------------------------------------------------------------------

  /** `GET /sessions`: the sessions whose `isActive` is exactly `true`. */
  method ListSessions(db: Db) returns (resp: Response)
    ensures resp == Response(200, Obj([Field("success", Bool(true)), Field("activeSessions", Arr(ListedSessions(db.root)))]))
  {
    var node := db.Read(SessionsPath);
    var active: seq<Json> := [];
    if Exists(node) {
      active := PushSelected([], FieldsOf(node), StrictlyActive, SessionEntry);
      assert node == GetPath(db.root, SessionsPath);
      assert Sessions(db.root) == FieldsOf(node);
      assert active == Select(FieldsOf(node), StrictlyActive, SessionEntry);
    }
    assert active == ListedSessions(db.root);
    resp := Response(200, Obj([Field("success", Bool(true)), Field("activeSessions", Arr(active))]));
  }

  /** A listed session is one whose `isActive` is `true`; every such session is
      also in a login's list. */
  lemma {:induction false} ListedSessionsMembers(root: Json, e: Json)
    ensures e in ListedSessions(root) <==>
            exists j :: 0 <= j < |Sessions(root)| && StrictlyActive(Sessions(root)[j].val) && e == SessionEntry(Sessions(root)[j])
    ensures e in ListedSessions(root) ==> e in LoginList(root)
  {
    SelectMembers(Sessions(root), StrictlyActive, SessionEntry, e);
    SelectMembers(Sessions(root), ActiveFlag, SessionEntry, e);
  }

  /** The two lists differ: a session stored with `isActive: 1` is active for the
      login reply and for the middleware, but `GET /sessions` does not list it. */
  lemma {:induction false} TruthyButNotListed()
    ensures var s := Obj([Field("isActive", Num(1))]);
      var root := Obj([Field("sessions", Obj([Field("ADMIN", Obj([Field("s1", s)]))]))]);
      |LoginList(root)| == 1 && ListedSessions(root) == []
  {
    var s := Obj([Field("isActive", Num(1))]);
    var root := Obj([Field("sessions", Obj([Field("ADMIN", Obj([Field("s1", s)]))]))]);
    assert GetPath(root, SessionsPath) == Obj([Field("s1", s)]);
    assert Sessions(root) == [Field("s1", s)];
    assert Get(s, "isActive") == Num(1);
    assert [Field("s1", s)][..0] == [];
  }
}
