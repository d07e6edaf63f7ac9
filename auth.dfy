/** `middlewares/authMiddleware.js`: the guard in front of the protected routes.
    It takes the token from the `Authorization` header, has it verified, and
    admits the request only while the session the token names is active.
    Token verification is a parameter (`verify`), `None` standing for a token
    the library rejects. */
module Auth {
  import opened JsValue
  import opened Tree
  import opened Channel
  import opened Login

  /** What the guard does with a request: `Next` passes it on untouched,
      `Admit` passes it on with `req.userId`/`req.sessionId` set, `Deny`
      answers 401 with the message. */
  datatype Verdict = Next | Admit(userId: Json, sessionId: Json) | Deny(message: string)

  const Missing: string := "Authorization token missing"
  const Invalid: string := "Invalid token"
  const Expired: string := "Session expired"

  /** The 401 reply of a denied request. */
  function Denial(message: string): Response {
    Response(401, Obj([Field("success", Bool(false)), Field("message", Str(message))]))
  }

  // ---------------------------------------------------------------------------
  // The token: `header.split(" ")[1]`
  // ---------------------------------------------------------------------------

  /** The text before the first space (all of `s` if it has none). */
  function UntilSpace(s: string): (p: string)
    ensures p <= s && ' ' !in p
    ensures |p| < |s| ==> s[|p|] == ' '
  {
    if s == [] || s[0] == ' ' then [] else [s[0]] + UntilSpace(s[1..])
  }

  /** The second space-separated part of the header, if it has a space. */
  function SecondPart(h: string): Option<string> {
    var first := UntilSpace(h);
    if |first| == |h| then None else Some(UntilSpace(h[|first| + 1..]))
  }

  /** The token of a header: absent when there is no header, when it is empty,
      or when its second part is missing or empty. */
  function TokenOf(header: Option<string>): (t: Option<string>)
    ensures t.Some? ==> t.value != [] && ' ' !in t.value
    ensures header.None? ==> t.None?
  {
    if header.None? || header.value == [] then None
    else match SecondPart(header.value)
      case None => None
      case Some(tok) => if tok == [] then None else Some(tok)
  }

  /** A token is the second part of its header, which therefore has a space. */
  lemma {:induction false} TokenIsSecondPart(h: string)
    requires TokenOf(Some(h)).Some?
    ensures |UntilSpace(h)| < |h| && TokenOf(Some(h)).value == UntilSpace(h[|UntilSpace(h)| + 1..])
  {
  }

  /** Where the token sits: right after the header's first space, running to
      the next space or to the end. */
  lemma {:induction false} TokenPosition(h: string, t: string)
    requires TokenOf(Some(h)) == Some(t)
    ensures var n := |UntilSpace(h)|;
      n < |h| && h[n] == ' ' && n + 1 + |t| <= |h| && h[n + 1..n + 1 + |t|] == t
      && (n + 1 + |t| == |h| || h[n + 1 + |t|] == ' ')
  {
    TokenIsSecondPart(h);
    var n := |UntilSpace(h)|;
    SliceAfter(h, n + 1, t);
  }

  /** A prefix of the text after position `i` sits at `i`. */
  lemma {:induction false} SliceAfter(h: string, i: nat, t: string)
    requires i <= |h| && t == UntilSpace(h[i..])
    ensures i + |t| <= |h| && h[i..i + |t|] == t && (i + |t| == |h| || h[i + |t|] == ' ')
  {
    var rest := h[i..];
    assert h[i..i + |t|] == rest[..|t|];
    if i + |t| < |h| {
      assert h[i + |t|] == rest[|t|];
    }
  }

  /** A header without a space has no token. */
  lemma {:induction false} NoSpaceNoToken(h: string)
    requires ' ' !in h
    ensures TokenOf(Some(h)).None?
  {
  }

  /** `UntilSpace` stops at the first space it meets. */
  lemma {:induction false} UntilSpaceConcat(a: string, b: string)
    requires ' ' !in a && b != [] && b[0] == ' '
    ensures UntilSpace(a + b) == a
    decreases |a|
  {
    if a == [] {
      assert a + b == b;
    } else {
      assert (a + b)[0] == a[0] && (a + b)[1..] == a[1..] + b;
      UntilSpaceConcat(a[1..], b);
      assert [a[0]] + a[1..] == a;
    }
  }

  /** `UntilSpace` of text without a space is the whole text. */
  lemma {:induction false} UntilSpaceAll(a: string)
    requires ' ' !in a
    ensures UntilSpace(a) == a
    decreases |a|
  {
    if a != [] {
      assert a[0] in a;
      assert forall c :: c in a[1..] ==> c in a;
      UntilSpaceAll(a[1..]);
      assert [a[0]] + a[1..] == a;
    }
  }

  /** The `Bearer <token>` header the front end sends yields the token. */
  lemma {:induction false} BearerRoundTrip(scheme: string, t: string)
    requires ' ' !in scheme && ' ' !in t && t != []
    ensures TokenOf(Some(scheme + " " + t)) == Some(t)
  {
    var h := scheme + " " + t;
    assert h == scheme + (" " + t);
    UntilSpaceConcat(scheme, " " + t);
    assert h[|scheme| + 1..] == t;
    UntilSpaceAll(t);
  }

  // ---------------------------------------------------------------------------
  // The session check
  // ---------------------------------------------------------------------------

  /** `${claim}` in the session path: a claim the token lacks prints as `undefined`. */
  function ClaimText(decoded: Json, k: string): string {
    if Has(decoded, k) then JsString(Get(decoded, k)) else "undefined"
  }

  /** `sessions/${userId}/${sessionId}`. */
  function SessionKey(decoded: Json): Path {
    ["sessions", ClaimText(decoded, "userId"), ClaimText(decoded, "sessionId")]
  }

  /** `snap.exists() && snap.val().isActive`. */
  predicate SessionActive(root: Json, decoded: Json) {
    var s := GetPath(root, SessionKey(decoded));
    Exists(s) && Truthy(Get(s, "isActive"))
  }

  /** `auth`: the path `/api` passes without any check; then a missing header or
      token is denied as missing, a token that does not verify as invalid, and
      one whose session is absent or not active as expired. Otherwise the
      request is admitted with the token's claims. */
  function Authenticate(path: string, header: Option<string>, verify: string -> Option<Json>, root: Json): (v: Verdict)
    ensures v.Next? <==> path == "/api"
    ensures path != "/api" && TokenOf(header).None? ==> v == Deny(Missing)
    ensures path != "/api" && TokenOf(header).Some? && verify(TokenOf(header).value).None? ==> v == Deny(Invalid)
    ensures path != "/api" && TokenOf(header).Some? && verify(TokenOf(header).value).Some? ==>
              var d := verify(TokenOf(header).value).value;
              v == if SessionActive(root, d) then Admit(Get(d, "userId"), Get(d, "sessionId")) else Deny(Expired)
    ensures v.Deny? ==> v.message in {Missing, Invalid, Expired}
  {
    if path == "/api" then Next
    else match TokenOf(header)
      case None => Deny(Missing)
      case Some(token) =>
        match verify(token)
        case None => Deny(Invalid)
        case Some(d) => if SessionActive(root, d) then Admit(Get(d, "userId"), Get(d, "sessionId")) else Deny(Expired)
  }

  /** A request admitted by the guard names a session that is stored and active. */
  lemma {:induction false} AdmittedSessionActive(path: string, header: Option<string>, verify: string -> Option<Json>, root: Json)
    requires Authenticate(path, header, verify, root).Admit?
    ensures TokenOf(header).Some? && verify(TokenOf(header).value).Some?
    ensures var d := verify(TokenOf(header).value).value;
      var s := GetPath(root, SessionKey(d));
      Exists(s) && Truthy(Get(s, "isActive"))
      && Authenticate(path, header, verify, root) == Admit(Get(d, "userId"), Get(d, "sessionId"))
  {
  }

  // ---------------------------------------------------------------------------
  // The guard against the session table the login routes keep
  // ---------------------------------------------------------------------------

  /** Claims that name the admin's session `sid`. */
  predicate NamesAdminSession(d: Json, sid: string) {
    Has(d, "userId") && Get(d, "userId") == Str(AdminUser)
    && Has(d, "sessionId") && Get(d, "sessionId") == Str(sid)
  }

  lemma {:induction false} AdminSessionKey(d: Json, sid: string)
    requires NamesAdminSession(d, sid)
    ensures SessionKey(d) == SessionsPath + [sid]
  {
  }

  /** The token a login hands out is admitted on every protected path right
      after the login. */
  lemma {:induction false} LoginTokenAdmitted(root: Json, password: Json, sid: string, now: int, ip: string, userAgent: Json,
                                              path: string, token: string, verify: string -> Option<Json>)
    requires path != "/api" && token != [] && ' ' !in token
    requires verify(token).Some? && NamesAdminSession(verify(token).value, sid)
    ensures var after := AfterLogin(root, password, sid, SessionRecord(now, ip, userAgent));
      Authenticate(path, Some("Bearer " + token), verify, after) == Admit(Str(AdminUser), Str(sid))
  {
    var after := AfterLogin(root, password, sid, SessionRecord(now, ip, userAgent));
    BearerRoundTrip("Bearer", token);
    assert "Bearer" + " " + token == "Bearer " + token;
    LoginListsNewSession(root, password, sid, now, ip, userAgent);
    AdminSessionKey(verify(token).value, sid);
    assert SessionActive(after, verify(token).value);
  }

  /** Once every device is logged out, no token of the admin gets through,
      whichever session it names. */
  lemma {:induction false} LogoutAllLocksOut(root: Json, path: string, header: Option<string>, verify: string -> Option<Json>)
    requires TokenOf(header).Some? && verify(TokenOf(header).value).Some?
    requires ClaimText(verify(TokenOf(header).value).value, "userId") == AdminUser
    ensures path != "/api" ==> Authenticate(path, header, verify, AfterLogoutAll(root)) == Deny(Expired)
  {
    var d := verify(TokenOf(header).value).value;
    var k := ClaimText(d, "sessionId");
    assert SessionKey(d) == SessionsPath + [k];
    LogoutAllEndsEverySession(root, k);
  }

  /** Logging out of one session turns its token away and leaves the verdict on
      every token naming another admin session as it was. */
  lemma {:induction false} LogoutOneLocksOutThatSession(root: Json, sid: string, path: string, header: Option<string>,
                                                        verify: string -> Option<Json>)
    requires path != "/api" && ActiveFlag(GetPath(root, SessionsPath + [sid]))
    requires TokenOf(header).Some? && verify(TokenOf(header).value).Some?
    requires ClaimText(verify(TokenOf(header).value).value, "userId") == AdminUser
    ensures var d := verify(TokenOf(header).value).value;
      var after := AfterLogoutOne(root, sid);
      if ClaimText(d, "sessionId") == sid then Authenticate(path, header, verify, after) == Deny(Expired)
      else Authenticate(path, header, verify, after) == Authenticate(path, header, verify, root)
  {
    var d := verify(TokenOf(header).value).value;
    var k := ClaimText(d, "sessionId");
    assert SessionKey(d) == SessionsPath + [k];
    if k == sid {
      LogoutOneOnlyThatSession(root, sid, sid + "x");
    } else {
      LogoutOneOnlyThatSession(root, sid, k);
    }
  }
}
