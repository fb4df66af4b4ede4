/**
 * The two request guards: `validateToken` (a bearer token, its verification,
 * then the user it names) and `validateUserExists` (a user id taken from the
 * route, the body or the query). Both look the user up in the Mongoose store
 * first and in the native store only when the first did not find it; a failing
 * lookup counts as not found. A guard either passes the request on (`next()`),
 * setting `req.user`, or answers it.
 */
module Middleware {
  import opened Wrappers
  import opened Strings
  import opened JsValues
  import opened Http

  /** The authentication scheme of section 2.1 of RFC 6750, matched case-sensitively with its space. */
  const BearerPrefix: string := "Bearer "

  const NoToken: string := "Token không được cung cấp"
  const BadToken: string := "Token không hợp lệ hoặc đã hết hạn"
  const UserGone: string := "Người dùng không tồn tại hoặc đã bị xóa"
  const UserIdRequired: string := "userId là bắt buộc"
  const UnknownUser: string := "Người dùng không tồn tại"

  /** `jwt.verify(token, secret)`: the decoded payload, or None where it throws. */
  type Verifier = (JsValue, string) -> Option<map<string, JsValue>>

  /** `findOne({ userId })` on one store, for each user id that can be asked for. */
  type UserStore = JsValue -> Lookup

  /** What a guard puts in `req.user`. */
  datatype SessionUser = SessionUser(userId: JsValue, email: JsValue)

  /** A guard calls `next()` or answers the request itself. */
  datatype Gate = Next | Reject(response: Response)

  /** The gate, and the value the guard assigned to `req.user` (None when it assigned nothing). */
  datatype Verdict = Verdict(gate: Gate, user: Option<SessionUser>)

  /** A header as a value: absent headers read as `undefined`. */
  function HeaderValue(h: Option<string>): JsValue {
    if h.Some? then Str(h.value) else Undefined
  }

  /**
   * The token of a request: the rest of an `Authorization` header that starts
   * with 'Bearer ', otherwise the `x-auth-token` header, otherwise the `token`
   * query parameter.
   */
  function ExtractToken(authorization: Option<string>, xAuthToken: Option<string>, query: map<string, JsValue>): JsValue {
    if authorization.Some? && StartsWith(authorization.value, BearerPrefix) then Str(authorization.value[|BearerPrefix|..])
    else Or(HeaderValue(xAuthToken), Prop(query, "token"))
  }

  /** `Authorization: Bearer <t>` yields exactly t, whatever the other sources hold. */
  lemma BearerTokenTaken(t: string, xAuthToken: Option<string>, query: map<string, JsValue>)
    ensures ExtractToken(Some(BearerPrefix + t), xAuthToken, query) == Str(t)
  {
    assert (BearerPrefix + t)[..|BearerPrefix|] == BearerPrefix;
    assert (BearerPrefix + t)[|BearerPrefix|..] == t;
  }

  /** Without the exact 'Bearer ' prefix the header is ignored: the custom header comes first, then the query. */
  lemma OtherSchemesIgnored(authorization: Option<string>, xAuthToken: Option<string>, query: map<string, JsValue>)
    requires authorization.None? || !StartsWith(authorization.value, BearerPrefix)
    ensures xAuthToken.Some? && xAuthToken.value != "" ==> ExtractToken(authorization, xAuthToken, query) == Str(xAuthToken.value)
    ensures xAuthToken.None? || xAuthToken.value == "" ==> ExtractToken(authorization, xAuthToken, query) == Prop(query, "token")
  {
  }

  /** The scheme name is matched case-sensitively: 'bearer ' is not a bearer header here. */
  lemma LowercaseSchemeIgnored(t: string, xAuthToken: Option<string>, query: map<string, JsValue>)
    ensures ExtractToken(Some("bearer " + t), xAuthToken, query) == Or(HeaderValue(xAuthToken), Prop(query, "token"))
  {
    var h := "bearer " + t;
    assert h[0] == 'b';
    assert !StartsWith(h, BearerPrefix);
  }

  /**
   * The two-store search: the Mongoose store's document, else the native
   * store's. A store that throws is treated as not having the user.
   */
  function FindUser(userId: JsValue, mongoose: UserStore, native: UserStore): (r: Option<map<string, JsValue>>)
    ensures r.Some? <==> mongoose(userId).Found? || native(userId).Found?
    ensures mongoose(userId).Found? ==> r == Some(mongoose(userId).doc)
    ensures !mongoose(userId).Found? && native(userId).Found? ==> r == Some(native(userId).doc)
  {
    match mongoose(userId)
    case Found(doc) => Some(doc)
    case _ =>
      match native(userId)
      case Found(doc) => Some(doc)
      case _ => None
  }

  /** What `validateToken` decides and assigns. */
  function TokenVerdict(authorization: Option<string>, xAuthToken: Option<string>, query: map<string, JsValue>,
                        secret: Option<string>, verify: Verifier, mongoose: UserStore, native: UserStore): Verdict
  {
    var token := ExtractToken(authorization, xAuthToken, query);
    if !Truthy(token) then Verdict(Reject(ErrorResponse(401, NoToken)), None)
    else
      match verify(token, JwtSecret(secret))
      case None => Verdict(Reject(ErrorResponse(401, BadToken)), None)
      case Some(decoded) =>
        var userId := Prop(decoded, "userId");
        if FindUser(userId, mongoose, native).Some? then Verdict(Next, Some(SessionUser(userId, Prop(decoded, "email"))))
        else Verdict(Reject(ErrorResponse(401, UserGone)), None)
  }

  /**
   * `validateToken` lets a request through exactly when it carries a token, the
   * token verifies under the configured secret, and one of the stores has the
   * user it names; `req.user` is then assigned the token's user id and email,
   * and it is assigned nothing otherwise. Every rejection is a 401.
   */
  lemma TokenVerdictIff(authorization: Option<string>, xAuthToken: Option<string>, query: map<string, JsValue>,
                        secret: Option<string>, verify: Verifier, mongoose: UserStore, native: UserStore)
    ensures var token := ExtractToken(authorization, xAuthToken, query);
            var v := TokenVerdict(authorization, xAuthToken, query, secret, verify, mongoose, native);
            && (v.gate.Next? <==> Truthy(token) && verify(token, JwtSecret(secret)).Some?
                                  && var userId := Prop(verify(token, JwtSecret(secret)).value, "userId");
                                     mongoose(userId).Found? || native(userId).Found?)
            && (v.user.Some? <==> v.gate.Next?)
            && (v.gate.Next? ==> var decoded := verify(token, JwtSecret(secret)).value;
                                 v.user.value == SessionUser(Prop(decoded, "userId"), Prop(decoded, "email")))
            && (v.gate.Reject? ==> v.gate.response.status == 401)
  {
  }

  /** Without a token the request is rejected before the verifier or the stores are consulted. */
  lemma NoTokenNoVerification(authorization: Option<string>, xAuthToken: Option<string>, query: map<string, JsValue>,
                              secret: Option<string>, verify: Verifier, verify': Verifier,
                              mongoose: UserStore, native: UserStore, mongoose': UserStore, native': UserStore)
    requires !Truthy(ExtractToken(authorization, xAuthToken, query))
    ensures TokenVerdict(authorization, xAuthToken, query, secret, verify, mongoose, native)
            == TokenVerdict(authorization, xAuthToken, query, secret, verify', mongoose', native')
            == Verdict(Reject(ErrorResponse(401, NoToken)), None)
  {
  }

  /** A user found in the Mongoose store is never looked up in the native store. */
  lemma NativeStoreOnlyAsFallback(userId: JsValue, mongoose: UserStore, native: UserStore, native': UserStore)
    requires mongoose(userId).Found?
    ensures FindUser(userId, mongoose, native) == FindUser(userId, mongoose, native')
  {
  }

  /** A throwing Mongoose store does not stop the search: the native store still decides. */
  lemma MongooseErrorFallsBack(userId: JsValue, mongoose: UserStore, native: UserStore)
    requires mongoose(userId).LookupFailed?
    ensures FindUser(userId, mongoose, native).Some? <==> native(userId).Found?
  {
  }

  /** A request and the one field the guards assign. */
  class Request {
    const authorization: Option<string>
    const xAuthToken: Option<string>
    const query: map<string, JsValue>
    const params: map<string, JsValue>
    const body: map<string, JsValue>
    var user: Option<SessionUser>

    constructor(authorization: Option<string>, xAuthToken: Option<string>, query: map<string, JsValue>,
                params: map<string, JsValue>, body: map<string, JsValue>)
      ensures this.authorization == authorization && this.xAuthToken == xAuthToken && this.query == query
      ensures this.params == params && this.body == body && this.user == None
    {
      this.authorization := authorization;
      this.xAuthToken := xAuthToken;
      this.query := query;
      this.params := params;
      this.body := body;
      this.user := None;
    }
  }

  /**
   * `validateToken`: the `userExists` flag is set by whichever store finds the
   * user first, and `req.user` with it.
   */
  method ValidateToken(req: Request, secret: Option<string>, verify: Verifier, mongoose: UserStore, native: UserStore)
      returns (gate: Gate)
    modifies req
    ensures var v := TokenVerdict(req.authorization, req.xAuthToken, req.query, secret, verify, mongoose, native);
            gate == v.gate && req.user == (if v.user.Some? then v.user else old(req.user))
  {
    var token := ExtractToken(req.authorization, req.xAuthToken, req.query);
    if !Truthy(token) {
      return Reject(ErrorResponse(401, NoToken));
    }
    var decoded := verify(token, JwtSecret(secret));
    if decoded.None? {
      return Reject(ErrorResponse(401, BadToken));
    }
    var userId := Prop(decoded.value, "userId");
    var userExists := false;
    if mongoose(userId).Found? {
      userExists := true;
      req.user := Some(SessionUser(userId, Prop(decoded.value, "email")));
    }
    if !userExists {
      if native(userId).Found? {
        userExists := true;
        req.user := Some(SessionUser(userId, Prop(decoded.value, "email")));
      }
    }
    if !userExists {
      return Reject(ErrorResponse(401, UserGone));
    }
    return Next;
  }

  /** `req.params.userId || req.body.userId || req.query.userId`. */
  function UserIdOf(params: map<string, JsValue>, body: map<string, JsValue>, query: map<string, JsValue>): JsValue {
    Or(Or(Prop(params, "userId"), Prop(body, "userId")), Prop(query, "userId"))
  }

  /** The route parameter wins over the body, and the body over the query; a falsy id falls through. */
  lemma UserIdPrecedence(params: map<string, JsValue>, body: map<string, JsValue>, query: map<string, JsValue>)
    ensures Truthy(Prop(params, "userId")) ==> UserIdOf(params, body, query) == Prop(params, "userId")
    ensures !Truthy(Prop(params, "userId")) && Truthy(Prop(body, "userId")) ==> UserIdOf(params, body, query) == Prop(body, "userId")
    ensures !Truthy(Prop(params, "userId")) && !Truthy(Prop(body, "userId")) ==> UserIdOf(params, body, query) == Prop(query, "userId")
    ensures Truthy(UserIdOf(params, body, query)) <==>
              Truthy(Prop(params, "userId")) || Truthy(Prop(body, "userId")) || Truthy(Prop(query, "userId"))
  {
  }

  /** What `validateUserExists` decides and assigns: `req.user` is read from the stored document. */
  function UserVerdict(params: map<string, JsValue>, body: map<string, JsValue>, query: map<string, JsValue>,
                       mongoose: UserStore, native: UserStore): Verdict
  {
    var userId := UserIdOf(params, body, query);
    if !Truthy(userId) then Verdict(Reject(ErrorResponse(400, UserIdRequired)), None)
    else
      match FindUser(userId, mongoose, native)
      case Some(doc) => Verdict(Next, Some(SessionUser(Prop(doc, "userId"), Prop(doc, "email"))))
      case None => Verdict(Reject(ErrorResponse(404, UnknownUser)), None)
  }

  /**
   * `validateUserExists` answers 400 exactly when no source holds a user id,
   * 404 exactly when neither store has the user, and otherwise passes the
   * request on with `req.user` taken from the first store that has it.
   */
  lemma UserVerdictCases(params: map<string, JsValue>, body: map<string, JsValue>, query: map<string, JsValue>,
                         mongoose: UserStore, native: UserStore)
    ensures var userId := UserIdOf(params, body, query);
            var v := UserVerdict(params, body, query, mongoose, native);
            && (v.gate == Reject(ErrorResponse(400, UserIdRequired)) <==> !Truthy(userId))
            && (v.gate == Reject(ErrorResponse(404, UnknownUser)) <==>
                  Truthy(userId) && !mongoose(userId).Found? && !native(userId).Found?)
            && (v.gate.Next? <==> v.user.Some?)
            && (v.gate.Next? && mongoose(userId).Found? ==>
                  v.user.value == SessionUser(Prop(mongoose(userId).doc, "userId"), Prop(mongoose(userId).doc, "email")))
            && (v.gate.Next? && !mongoose(userId).Found? ==>
                  v.user.value == SessionUser(Prop(native(userId).doc, "userId"), Prop(native(userId).doc, "email")))
  {
    assert ErrorResponse(400, UserIdRequired) != ErrorResponse(404, UnknownUser);
  }

  /** `validateUserExists`, with the same step-by-step flag as `validateToken`. */
  method ValidateUserExists(req: Request, mongoose: UserStore, native: UserStore) returns (gate: Gate)
    modifies req
    ensures var v := UserVerdict(req.params, req.body, req.query, mongoose, native);
            gate == v.gate && req.user == (if v.user.Some? then v.user else old(req.user))
  {
    var userId := UserIdOf(req.params, req.body, req.query);
    if !Truthy(userId) {
      return Reject(ErrorResponse(400, UserIdRequired));
    }
    var userExists := false;
    var user := mongoose(userId);
    if user.Found? {
      userExists := true;
      req.user := Some(SessionUser(Prop(user.doc, "userId"), Prop(user.doc, "email")));
    }
    if !userExists {
      var nativeUser := native(userId);
      if nativeUser.Found? {
        userExists := true;
        req.user := Some(SessionUser(Prop(nativeUser.doc, "userId"), Prop(nativeUser.doc, "email")));
      }
    }
    if !userExists {
      return Reject(ErrorResponse(404, UnknownUser));
    }
    return Next;
  }
}
