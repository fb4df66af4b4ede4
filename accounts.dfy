/**
 * The account endpoints over the native `users` collection: register, login,
 * forgot-password and reset-password. The collection is a sequence of
 * documents in insertion order; `findOne` returns the first match and
 * `updateOne` changes the first document with the given user id. Hashing,
 * signing, random tokens and the clock are parameters; times are milliseconds.
 */
module Accounts {
  import opened Wrappers
  import opened Strings
  import opened JsValues
  import opened Http

  /** A document of the native `users` collection. */
  datatype Account = Account(
    userId: string, email: string, passwordHash: Option<string>, name: JsValue,
    dietaryPreferences: JsValue, customDietary: JsValue, allergies: JsValue,
    createdAt: int, updatedAt: int, lastLoginAt: Option<int>,
    resetToken: Option<string>, resetTokenExpiry: Option<int>)

  /** The foreign calls: `bcrypt.hash`, `bcrypt.compare`, `jwt.sign` and `crypto.randomBytes(32).toString('hex')`. */
  datatype Crypto = Crypto(
    hash: JsValue -> Option<string>,              // None where it throws
    compare: (JsValue, string) -> Option<bool>,   // None where it throws
    sign: (string, string, string) -> string,     // (userId, email, secret) to a token valid for seven days
    randomToken: string)

  /** A response and the collection after the request. */
  datatype Step = Step(response: Response, users: seq<Account>)

  const ServerError: string := "Lỗi server. Vui lòng thử lại sau."
  const CredentialsRequired: string := "Email và mật khẩu là bắt buộc"
  const InvalidEmail: string := "Email không hợp lệ"
  const ShortPassword: string := "Mật khẩu phải có ít nhất 6 ký tự"
  const EmailTaken: string := "Email này đã được sử dụng"
  const WrongCredentials: string := "Email hoặc mật khẩu không đúng"
  const EmailRequired: string := "Email là bắt buộc"
  const ResetSent: string := "Nếu email tồn tại, chúng tôi đã gửi link đặt lại mật khẩu."
  const ResetFieldsRequired: string := "Token và mật khẩu mới là bắt buộc"
  const BadResetToken: string := "Token không hợp lệ hoặc đã hết hạn"
  const ExpiredResetToken: string := "Token đã hết hạn. Vui lòng yêu cầu lại."
  const ResetDone: string := "Đặt lại mật khẩu thành công"

  const MinPasswordLength: nat := 6
  /** One hour, the lifetime of a reset token. */
  const ResetTokenLifetime: int := 3600000

  // ---------------------------------------------------------------------------
  // Validators

  /** One of the three parts of the email pattern: at least one character, none of them '@' or whitespace. */
  predicate EmailPart(p: string) {
    p != [] && forall k :: 0 <= k < |p| ==> p[k] != '@' && !IsSpace(p[k])
  }

  /** s is `a@b.c` with three valid parts. */
  ghost predicate EmailForm(s: string, a: string, b: string, c: string) {
    s == a + "@" + b + "." + c && EmailPart(a) && EmailPart(b) && EmailPart(c)
  }

  /** What `/^[^\s@]+@[^\s@]+\.[^\s@]+$/` accepts. */
  ghost predicate MatchesEmailPattern(s: string) {
    exists a, b, c :: EmailForm(s, a, b, c)
  }

  /** A '.' with at least one character on each side. */
  predicate InnerDot(s: string) {
    exists j :: 0 < j < |s| - 1 && s[j] == '.'
  }

  /** The pattern test: one '@' with text before it, and after it text holding an inner '.'. */
  function IsValidEmail(s: string): (r: bool)
    ensures r <==> MatchesEmailPattern(s)
  {
    IndexOfChar(s, '@');
    PatternNeedsAt(s);
    match IndexOf(s, "@")
    case None => false
    case Some(i) =>
      var r := EmailPart(s[..i]) && EmailPart(s[i + 1..]) && InnerDot(s[i + 1..]);
      EmailPatternAt(s, i);
      r
  }

  /** With the first '@' at i, the pattern holds exactly when both sides are valid parts and the right one has an inner dot. */
  lemma EmailPatternAt(s: string, i: nat)
    requires i < |s| && s[i] == '@' && forall k :: 0 <= k < i ==> s[k] != '@'
    ensures MatchesEmailPattern(s) <==> EmailPart(s[..i]) && EmailPart(s[i + 1..]) && InnerDot(s[i + 1..])
  {
    if EmailPart(s[..i]) && EmailPart(s[i + 1..]) && InnerDot(s[i + 1..]) {
      PartsMakeForm(s, i);
    }
    if MatchesEmailPattern(s) {
      var a, b, c :| EmailForm(s, a, b, c);
      FormAtFirstAt(s, a, b, c, i);
      FormGivesParts(s, a, b, c);
    }
  }

  lemma PartsMakeForm(s: string, i: nat)
    requires i < |s| && s[i] == '@'
    requires EmailPart(s[..i]) && EmailPart(s[i + 1..]) && InnerDot(s[i + 1..])
    ensures MatchesEmailPattern(s)
  {
    var rest := s[i + 1..];
    var j :| 0 < j < |rest| - 1 && rest[j] == '.';
    var a, b, c := s[..i], rest[..j], rest[j + 1..];
    assert rest == b + "." + c;
    assert s == s[..i] + [s[i]] + rest;
    assert s == a + "@" + b + "." + c;
    assert EmailForm(s, a, b, c);
  }

  lemma FormGivesParts(s: string, a: string, b: string, c: string)
    requires EmailForm(s, a, b, c)
    ensures var i := |a|; EmailPart(s[..i]) && EmailPart(s[i + 1..]) && InnerDot(s[i + 1..])
  {
    var rest := s[|a| + 1..];
    assert s[..|a|] == a;
    assert rest == b + "." + c;
    assert rest[|b|] == '.';
    forall k | 0 <= k < |rest| ensures rest[k] != '@' && !IsSpace(rest[k]) {
      if k < |b| { assert rest[k] == b[k]; }
      else if k > |b| { assert rest[k] == c[k - |b| - 1]; }
    }
  }

  lemma PatternNeedsAt(s: string)
    ensures MatchesEmailPattern(s) ==> '@' in s
  {
    if MatchesEmailPattern(s) {
      var a, b, c :| EmailForm(s, a, b, c);
      assert s[|a|] == '@';
    }
  }

  /** In `a@b.c` the first '@' is the one after a, since a holds none. */
  lemma FormAtFirstAt(s: string, a: string, b: string, c: string, i: nat)
    requires EmailForm(s, a, b, c)
    requires i < |s| && s[i] == '@' && forall k :: 0 <= k < i ==> s[k] != '@'
    ensures |a| == i
  {
    assert s[|a|] == '@';
    assert forall k :: 0 <= k < |a| ==> s[k] == a[k];
  }

  /**
   * `v.length < n`: strings by their UTF-16 length, arrays by their length, an
   * object by its `length` property converted to a number (NaN compares false);
   * other values have no `length`.
   */
  predicate LengthBelow(v: JsValue, n: int) {
    match v
    case Str(s) => Utf16Length(s) < n
    case Arr(xs) => |xs| < n
    case Obj(m) => ToNumber(Prop(m, "length")).Some? && ToNumber(Prop(m, "length")).value < n
    case _ => false
  }

  /**
   * An object password's `length` is converted before the comparison: `null`,
   * `'3'` and `true` are all short.
   */
  lemma ConvertedLengthIsShort()
    ensures LengthBelow(Obj(map["length" := Null]), MinPasswordLength)
    ensures LengthBelow(Obj(map["length" := Str("3")]), MinPasswordLength)
    ensures LengthBelow(Obj(map["length" := Bool(true)]), MinPasswordLength)
  {
    StringToNumberOfUnsigned("3");
  }

  /** A missing or large `length` does not make an object password short. */
  lemma ConvertedLengthIsNotShort()
    ensures !LengthBelow(Obj(map[]), MinPasswordLength)
    ensures !LengthBelow(Obj(map["length" := Str("8")]), MinPasswordLength)
  {
    StringToNumberOfUnsigned("8");
  }

  /** A `length` that converts to NaN, such as non-numeric text, compares false. */
  lemma NaNLengthIsNotShort()
    ensures !LengthBelow(Obj(map["length" := Str("abc")]), MinPasswordLength)
  {
    StringToNumberOfWord("abc");
  }

  /** A plain object as `length` prints as `[object Object]`, which converts to NaN. */
  lemma ObjectLengthIsNotShort()
    ensures !LengthBelow(Obj(map["length" := Obj(map[])]), MinPasswordLength)
  {
    StringToNumberOfWord("[object Object]");
  }

  /**
   * The password check counts UTF-16 code units: three emoji pass it, while five
   * letters do not.
   */
  lemma PasswordLengthInCodeUnits()
    ensures !LengthBelow(Str("\U{1F600}\U{1F600}\U{1F600}"), MinPasswordLength)
    ensures LengthBelow(Str("abcde"), MinPasswordLength)
  {
    var e := "\U{1F600}\U{1F600}\U{1F600}";
    assert Astral(e[0]) && Astral(e[1]) && Astral(e[2]);
    assert Utf16Length(e[2..]) == 2;
    assert Utf16Length(e[1..]) == 4;
  }

  /** `email.toLowerCase().trim()`: only strings have these methods. */
  function NormalizeEmail(email: JsValue): (r: Result<string, TypeError>)
    ensures r.Success? <==> email.Str?
    ensures r.Success? ==> r.value == LowerTrim(email.s)
  {
    if email.Str? then Success(LowerTrim(email.s)) else Failure(TypeError)
  }

  /** `name?.trim() || null`: a blank or missing name is stored as null; a name without `trim` throws. */
  function StoredName(name: JsValue): (r: Result<JsValue, TypeError>)
    ensures r.Failure? <==> !(name.Undefined? || name.Null? || name.Str?)
    ensures name.Str? && Trim(name.s) != "" ==> r == Success(Str(Trim(name.s)))
    ensures (name.Str? && Trim(name.s) == "") || name.Undefined? || name.Null? ==> r == Success(Null)
  {
    match name
    case Undefined => Success(Null)
    case Null => Success(Null)
    case Str(s) => if Trim(s) != "" then Success(Str(Trim(s))) else Success(Null)
    case _ => Failure(TypeError)
  }

  // ---------------------------------------------------------------------------
  // The collection

  /** `findOne` on a condition: the index of the first document that meets it. */
  function FirstWhere(users: seq<Account>, p: Account -> bool): (r: Option<nat>)
    ensures r.Some? ==> r.value < |users| && p(users[r.value]) && forall k :: 0 <= k < r.value ==> !p(users[k])
    ensures r.None? ==> forall k :: 0 <= k < |users| ==> !p(users[k])
    decreases |users|
  {
    if users == [] then None
    else if p(users[0]) then Some(0)
    else
      match FirstWhere(users[1..], p)
      case None => None
      case Some(k) => Some(k + 1)
  }

  function WithEmail(email: string): Account -> bool {
    (u: Account) => u.email == email
  }

  function WithUserId(userId: string): Account -> bool {
    (u: Account) => u.userId == userId
  }

  /** `findOne({ resetToken: token })`. Only a string can equal a stored token here. */
  function WithResetToken(token: JsValue): Account -> bool {
    (u: Account) => u.resetToken.Some? && token == Str(u.resetToken.value)
  }

  /** `updateOne({ userId }, update)`: the first document with that id is changed; no match changes nothing. */
  function UpdateFirst(users: seq<Account>, userId: string, update: Account -> Account): (r: seq<Account>)
    ensures |r| == |users|
    ensures FirstWhere(users, WithUserId(userId)).None? ==> r == users
    ensures FirstWhere(users, WithUserId(userId)).Some? ==>
              var i := FirstWhere(users, WithUserId(userId)).value;
              r == users[i := update(users[i])]
  {
    match FirstWhere(users, WithUserId(userId))
    case None => users
    case Some(i) => users[i := update(users[i])]
  }

  /** The collection, the one piece of state the account endpoints change. */
  class AccountStore {
    var users: seq<Account>

    constructor(users: seq<Account>)
      ensures this.users == users
    {
      this.users := users;
    }

    /** `insertOne(doc)`. */
    method Insert(a: Account)
      modifies this
      ensures users == old(users) + [a]
    {
      users := users + [a];
    }

    /** `updateOne({ userId }, update)`. */
    method Update(userId: string, update: Account -> Account)
      modifies this
      ensures users == UpdateFirst(old(users), userId, update)
    {
      users := UpdateFirst(users, userId, update);
    }
  }

  /** The user as the endpoints return it: id, email and name, never the hash. */
  function PublicUser(userId: string, email: string, name: JsValue): (r: JsValue)
    ensures r.Obj? && r.fields.Keys == {"userId", "email", "name"}
  {
    Obj(map["userId" := Str(userId), "email" := Str(email), "name" := name])
  }

  // ---------------------------------------------------------------------------
  // Register

  /** The request `{ email, password, name }` to register, with the new user's id and the clock. */
  function RegisterSpec(users: seq<Account>, body: map<string, JsValue>, c: Crypto, secret: Option<string>,
                        newUserId: string, now: int): Step
  {
    var email := Prop(body, "email");
    var password := Prop(body, "password");
    if !Truthy(email) || !Truthy(password) then Step(ErrorResponse(400, CredentialsRequired), users)
    else if !IsValidEmail(ToString(email)) then Step(ErrorResponse(400, InvalidEmail), users)
    else if LengthBelow(password, MinPasswordLength) then Step(ErrorResponse(400, ShortPassword), users)
    else
      match NormalizeEmail(email)
      case Failure(_) => Step(ErrorResponse(500, ServerError), users)
      case Success(e) =>
        if FirstWhere(users, WithEmail(e)).Some? then Step(ErrorResponse(409, EmailTaken), users)
        else
          match c.hash(password)
          case None => Step(ErrorResponse(500, ServerError), users)
          case Some(h) =>
            match StoredName(Prop(body, "name"))
            case Failure(_) => Step(ErrorResponse(500, ServerError), users)
            case Success(name) =>
              var a := Account(newUserId, e, Some(h), name, Str("default"), Null, Arr([]), now, now, None, None, None);
              var token := c.sign(newUserId, e, JwtSecret(secret));
              Step(Response(201, map["success" := Bool(true), "token" := Str(token), "user" := PublicUser(newUserId, e, name)]),
                   users + [a])
  }

  /**
   * Registration adds exactly one account, with the normalised email, the
   * hash, no reset token, the trimmed name or null and the profile defaults,
   * exactly when it answers 201, and the answer shows only the new user's id,
   * email and name; every other answer leaves the collection as it was.
   */
  lemma RegisterOutcome(users: seq<Account>, body: map<string, JsValue>, c: Crypto, secret: Option<string>,
                        newUserId: string, now: int)
    ensures var st := RegisterSpec(users, body, c, secret, newUserId, now);
            && (st.response.status == 201 <==> |st.users| == |users| + 1)
            && (st.response.status != 201 ==> st.users == users)
            && (st.response.status == 201 ==>
                  && Prop(body, "email").Str?
                  && var a := st.users[|users|];
                  && st.users == users + [a]
                  && a.userId == newUserId && a.email == LowerTrim(Prop(body, "email").s)
                  && a.passwordHash == c.hash(Prop(body, "password")) && a.resetToken.None?
                  && a.dietaryPreferences == Str("default") && a.customDietary == Null && a.allergies == Arr([])
                  && StoredName(Prop(body, "name")) == Success(a.name)
                  && "user" in st.response.body && st.response.body["user"] == PublicUser(newUserId, a.email, a.name)
                  && IsValidEmail(ToString(Prop(body, "email")))
                  && !LengthBelow(Prop(body, "password"), MinPasswordLength)
                  && FirstWhere(users, WithEmail(a.email)).None?)
  {
  }

  /** No two accounts share an email. */
  predicate UniqueEmails(users: seq<Account>) {
    forall i, j :: 0 <= i < j < |users| ==> users[i].email != users[j].email
  }

  /** Registration never creates a second account with an email already in the collection. */
  lemma RegisterKeepsEmailsUnique(users: seq<Account>, body: map<string, JsValue>, c: Crypto, secret: Option<string>,
                                  newUserId: string, now: int)
    requires UniqueEmails(users)
    ensures UniqueEmails(RegisterSpec(users, body, c, secret, newUserId, now).users)
  {
    var st := RegisterSpec(users, body, c, secret, newUserId, now);
    RegisterOutcome(users, body, c, secret, newUserId, now);
    if st.response.status == 201 {
      var a := st.users[|users|];
      forall i, j | 0 <= i < j < |st.users| ensures st.users[i].email != st.users[j].email {
        if j == |users| {
          assert st.users[i] == users[i];
          assert !WithEmail(a.email)(users[i]);
        }
      }
    }
  }

  /** The register endpoint on the store. */
  method Register(store: AccountStore, body: map<string, JsValue>, c: Crypto, secret: Option<string>,
                  newUserId: string, now: int) returns (response: Response)
    modifies store
    ensures Step(response, store.users) == RegisterSpec(old(store.users), body, c, secret, newUserId, now)
  {
    var st := RegisterSpec(store.users, body, c, secret, newUserId, now);
    RegisterOutcome(store.users, body, c, secret, newUserId, now);
    if st.response.status == 201 {
      store.Insert(st.users[|store.users|]);
    }
    return st.response;
  }

  // ---------------------------------------------------------------------------
  // Login

  function LoginSpec(users: seq<Account>, body: map<string, JsValue>, c: Crypto, secret: Option<string>, now: int): Step {
    var email := Prop(body, "email");
    var password := Prop(body, "password");
    if !Truthy(email) || !Truthy(password) then Step(ErrorResponse(400, CredentialsRequired), users)
    else
      match NormalizeEmail(email)
      case Failure(_) => Step(ErrorResponse(500, ServerError), users)
      case Success(e) =>
        match FirstWhere(users, WithEmail(e))
        case None => Step(ErrorResponse(401, WrongCredentials), users)
        case Some(i) =>
          var u := users[i];
          if u.passwordHash.None? || u.passwordHash.value == "" then Step(ErrorResponse(401, WrongCredentials), users)
          else
            match c.compare(password, u.passwordHash.value)
            case None => Step(ErrorResponse(500, ServerError), users)
            case Some(ok) =>
              if !ok then Step(ErrorResponse(401, WrongCredentials), users)
              else
                var token := c.sign(u.userId, u.email, JwtSecret(secret));
                Step(Response(200, map["success" := Bool(true), "token" := Str(token), "user" := PublicUser(u.userId, u.email, u.name)]),
                     UpdateFirst(users, u.userId, (a: Account) => a.(lastLoginAt := Some(now))))
  }

  /**
   * A login succeeds exactly when the normalised email names an account whose
   * hash matches the password; only then is `lastLoginAt` written, and only
   * that field, and the answer shows only that account's id, email and name.
   * An unknown email and a wrong password get the same answer.
   */
  lemma LoginOutcome(users: seq<Account>, body: map<string, JsValue>, c: Crypto, secret: Option<string>, now: int)
    ensures var st := LoginSpec(users, body, c, secret, now);
            && (st.response.status != 200 ==> st.users == users)
            && (st.response.status == 200 <==>
                  && Truthy(Prop(body, "email")) && Truthy(Prop(body, "password")) && Prop(body, "email").Str?
                  && var i := FirstWhere(users, WithEmail(LowerTrim(Prop(body, "email").s)));
                  && i.Some? && users[i.value].passwordHash.Some? && users[i.value].passwordHash.value != ""
                  && c.compare(Prop(body, "password"), users[i.value].passwordHash.value) == Some(true))
            && (st.response.status == 200 ==>
                  var u := users[FirstWhere(users, WithEmail(LowerTrim(Prop(body, "email").s))).value];
                  && st.users == UpdateFirst(users, u.userId, (a: Account) => a.(lastLoginAt := Some(now)))
                  && "user" in st.response.body && st.response.body["user"] == PublicUser(u.userId, u.email, u.name))
            && (st.response.status == 401 ==> st.response == ErrorResponse(401, WrongCredentials))
  {
  }

  /** The login endpoint on the store. */
  method Login(store: AccountStore, body: map<string, JsValue>, c: Crypto, secret: Option<string>, now: int)
      returns (response: Response)
    modifies store
    ensures Step(response, store.users) == LoginSpec(old(store.users), body, c, secret, now)
  {
    var st := LoginSpec(store.users, body, c, secret, now);
    LoginOutcome(store.users, body, c, secret, now);
    if st.response.status == 200 {
      var u := store.users[FirstWhere(store.users, WithEmail(LowerTrim(Prop(body, "email").s))).value];
      store.Update(u.userId, (a: Account) => a.(lastLoginAt := Some(now)));
    }
    return st.response;
  }

  // ---------------------------------------------------------------------------
  // Forgot password

  /** The stored expiry of a token issued at `now`: one hour later. */
  function IssueResetToken(token: string, now: int): Account -> Account {
    (a: Account) => a.(resetToken := Some(token), resetTokenExpiry := Some(now + ResetTokenLifetime))
  }

  function ForgotSpec(users: seq<Account>, body: map<string, JsValue>, c: Crypto, now: int): (r: Step)
    ensures |r.users| == |users|
  {
    var email := Prop(body, "email");
    if !Truthy(email) then Step(ErrorResponse(400, EmailRequired), users)
    else
      match NormalizeEmail(email)
      case Failure(_) => Step(ErrorResponse(500, ServerError), users)
      case Success(e) =>
        var users' := match FirstWhere(users, WithEmail(e))
                      case None => users
                      case Some(i) => UpdateFirst(users, users[i].userId, IssueResetToken(c.randomToken, now));
        Step(Response(200, map["success" := Bool(true), "message" := Str(ResetSent)]), users')
  }

  /**
   * Asking for a reset answers the same whether or not the email is known; for
   * a known one, the account with its user id gets the random token and an
   * expiry one hour after the request.
   */
  lemma ForgotOutcome(users: seq<Account>, others: seq<Account>, body: map<string, JsValue>, c: Crypto, now: int)
    ensures ForgotSpec(users, body, c, now).response == ForgotSpec(others, body, c, now).response
    ensures var st := ForgotSpec(users, body, c, now);
            && (st.response.status == 200 <==> Prop(body, "email").Str? && Prop(body, "email").s != "")
            && (st.response.status == 200 ==>
                  var i := FirstWhere(users, WithEmail(LowerTrim(Prop(body, "email").s)));
                  && (i.None? ==> st.users == users)
                  && (i.Some? ==> st.users == UpdateFirst(users, users[i.value].userId, IssueResetToken(c.randomToken, now))))
            && (st.response.status != 200 ==> st.users == users)
  {
    var email := Prop(body, "email");
    if Truthy(email) && email.Str? {
      var i := FirstWhere(users, WithEmail(LowerTrim(email.s)));
      assert ForgotSpec(users, body, c, now).response.status == 200;
    }
  }

  /** The forgot-password endpoint on the store. */
  method ForgotPassword(store: AccountStore, body: map<string, JsValue>, c: Crypto, now: int) returns (response: Response)
    modifies store
    ensures Step(response, store.users) == ForgotSpec(old(store.users), body, c, now)
  {
    var email := Prop(body, "email");
    if !Truthy(email) {
      return ErrorResponse(400, EmailRequired);
    }
    if !email.Str? {
      return ErrorResponse(500, ServerError);
    }
    var found := FirstWhere(store.users, WithEmail(LowerTrim(email.s)));
    if found.Some? {
      store.Update(store.users[found.value].userId, IssueResetToken(c.randomToken, now));
    }
    return Response(200, map["success" := Bool(true), "message" := Str(ResetSent)]);
  }

  // ---------------------------------------------------------------------------
  // Reset password

  /** `new Date() > new Date(user.resetTokenExpiry)`: a missing expiry is an invalid date, and never in the past. */
  predicate Expired(expiry: Option<int>, now: int) {
    expiry.Some? && now > expiry.value
  }

  /** The new hash is written and the token fields are removed. */
  function ApplyReset(hash: string, now: int): Account -> Account {
    (a: Account) => a.(passwordHash := Some(hash), updatedAt := now, resetToken := None, resetTokenExpiry := None)
  }

  function ResetSpec(users: seq<Account>, body: map<string, JsValue>, c: Crypto, now: int): (r: Step)
    ensures |r.users| == |users|
  {
    var token := Prop(body, "token");
    var password := Prop(body, "newPassword");
    if !Truthy(token) || !Truthy(password) then Step(ErrorResponse(400, ResetFieldsRequired), users)
    else if LengthBelow(password, MinPasswordLength) then Step(ErrorResponse(400, ShortPassword), users)
    else
      match FirstWhere(users, WithResetToken(token))
      case None => Step(ErrorResponse(400, BadResetToken), users)
      case Some(i) =>
        if Expired(users[i].resetTokenExpiry, now) then Step(ErrorResponse(400, ExpiredResetToken), users)
        else
          match c.hash(password)
          case None => Step(ErrorResponse(500, ServerError), users)
          case Some(h) =>
            Step(Response(200, map["success" := Bool(true), "message" := Str(ResetDone)]),
                 UpdateFirst(users, users[i].userId, ApplyReset(h, now)))
  }

  /**
   * The checks come in order: both fields, the length, a holder of the token,
   * its expiry. Only a request passing all of them (and a hash that does not
   * throw) changes the collection.
   */
  lemma ResetOutcome(users: seq<Account>, body: map<string, JsValue>, c: Crypto, now: int)
    ensures var st := ResetSpec(users, body, c, now);
            && (st.response.status != 200 ==> st.users == users)
            && (st.response.status == 200 <==>
                  && Truthy(Prop(body, "token")) && Truthy(Prop(body, "newPassword"))
                  && !LengthBelow(Prop(body, "newPassword"), MinPasswordLength)
                  && FirstWhere(users, WithResetToken(Prop(body, "token"))).Some?
                  && !Expired(users[FirstWhere(users, WithResetToken(Prop(body, "token"))).value].resetTokenExpiry, now)
                  && c.hash(Prop(body, "newPassword")).Some?)
            && (st.response.status == 200 ==>
                  var u := users[FirstWhere(users, WithResetToken(Prop(body, "token"))).value];
                  st.users == UpdateFirst(users, u.userId, ApplyReset(c.hash(Prop(body, "newPassword")).value, now)))
  {
  }

  /** The reset-password endpoint on the store. */
  method ResetPassword(store: AccountStore, body: map<string, JsValue>, c: Crypto, now: int) returns (response: Response)
    modifies store
    ensures Step(response, store.users) == ResetSpec(old(store.users), body, c, now)
  {
    var st := ResetSpec(store.users, body, c, now);
    ResetOutcome(store.users, body, c, now);
    if st.response.status == 200 {
      var u := store.users[FirstWhere(store.users, WithResetToken(Prop(body, "token"))).value];
      store.Update(u.userId, ApplyReset(c.hash(Prop(body, "newPassword")).value, now));
    }
    return st.response;
  }

  // ---------------------------------------------------------------------------
  // The reset-token lifecycle

  /** No two accounts share a user id. */
  predicate UniqueUserIds(users: seq<Account>) {
    forall i, j :: 0 <= i < j < |users| ==> users[i].userId != users[j].userId
  }

  /** With unique user ids, updating by the id of the i-th account changes that account. */
  lemma UpdateHitsOwner(users: seq<Account>, i: nat, update: Account -> Account)
    requires UniqueUserIds(users) && i < |users|
    ensures UpdateFirst(users, users[i].userId, update) == users[i := update(users[i])]
  {
    var f := FirstWhere(users, WithUserId(users[i].userId));
    assert WithUserId(users[i].userId)(users[i]);
    assert f.Some? && f.value == i;
  }

  /**
   * A token issued by forgot-password for a known email resets that account's
   * password within the hour, consumes the token, and is refused once the hour
   * has passed. The token must be fresh (held by no account) and the user ids
   * unique, as the generator and the id scheme intend.
   */
  lemma ResetTokenLifecycle(users: seq<Account>, email: string, c: Crypto, issuedAt: int,
                            password: JsValue, usedAt: int)
    requires UniqueUserIds(users)
    requires email != "" && FirstWhere(users, WithEmail(LowerTrim(email))).Some?
    requires c.randomToken != "" && FirstWhere(users, WithResetToken(Str(c.randomToken))).None?
    requires Truthy(password) && !LengthBelow(password, MinPasswordLength) && c.hash(password).Some?
    ensures var issued := ForgotSpec(users, map["email" := Str(email)], c, issuedAt).users;
            var reset := ResetSpec(issued, map["token" := Str(c.randomToken), "newPassword" := password], c, usedAt);
            var i := FirstWhere(users, WithEmail(LowerTrim(email))).value;
            && (usedAt <= issuedAt + ResetTokenLifetime ==>
                  && reset.response.status == 200
                  && reset.users[i].passwordHash == c.hash(password)
                  && FirstWhere(reset.users, WithResetToken(Str(c.randomToken))).None?)
            && (usedAt > issuedAt + ResetTokenLifetime ==>
                  reset.response == ErrorResponse(400, ExpiredResetToken) && reset.users == issued)
  {
    var i := FirstWhere(users, WithEmail(LowerTrim(email))).value;
    var issued := ForgotSpec(users, map["email" := Str(email)], c, issuedAt).users;
    IssueMakesSoleHolder(users, email, c, issuedAt);
    RedeemSoleToken(issued, i, c.randomToken, password, c, usedAt, issuedAt + ResetTokenLifetime);
  }

  /** Only the i-th account holds the token. */
  predicate SoleHolder(users: seq<Account>, token: JsValue, i: nat) {
    && i < |users| && WithResetToken(token)(users[i])
    && forall k :: 0 <= k < |users| && k != i ==> !WithResetToken(token)(users[k])
  }

  /** Forgot-password with a fresh token makes the account of that email its only holder. */
  lemma IssueMakesSoleHolder(users: seq<Account>, email: string, c: Crypto, issuedAt: int)
    requires UniqueUserIds(users)
    requires email != "" && FirstWhere(users, WithEmail(LowerTrim(email))).Some?
    requires FirstWhere(users, WithResetToken(Str(c.randomToken))).None?
    ensures var issued := ForgotSpec(users, map["email" := Str(email)], c, issuedAt).users;
            var i := FirstWhere(users, WithEmail(LowerTrim(email))).value;
            && UniqueUserIds(issued) && SoleHolder(issued, Str(c.randomToken), i)
            && issued[i].resetTokenExpiry == Some(issuedAt + ResetTokenLifetime)
  {
    var t := Str(c.randomToken);
    var i := FirstWhere(users, WithEmail(LowerTrim(email))).value;
    UpdateHitsOwner(users, i, IssueResetToken(c.randomToken, issuedAt));
    var issued := ForgotSpec(users, map["email" := Str(email)], c, issuedAt).users;
    assert issued == users[i := IssueResetToken(c.randomToken, issuedAt)(users[i])];
    assert WithResetToken(t)(issued[i]);
    forall k | 0 <= k < |issued| && k != i ensures !WithResetToken(t)(issued[k]) {
      assert issued[k] == users[k];
    }
    assert UniqueUserIds(issued) by {
      forall a, b | 0 <= a < b < |issued| ensures issued[a].userId != issued[b].userId {
        assert issued[a].userId == users[a].userId && issued[b].userId == users[b].userId;
      }
    }
  }

  /** Redeeming a token held by one account only: before its expiry it resets and clears it, after it is refused. */
  lemma RedeemSoleToken(issued: seq<Account>, i: nat, token: string, password: JsValue, c: Crypto, usedAt: int, expiry: int)
    requires UniqueUserIds(issued) && SoleHolder(issued, Str(token), i)
    requires issued[i].resetTokenExpiry == Some(expiry)
    requires token != "" && Truthy(password) && !LengthBelow(password, MinPasswordLength) && c.hash(password).Some?
    ensures var reset := ResetSpec(issued, map["token" := Str(token), "newPassword" := password], c, usedAt);
            && (usedAt <= expiry ==>
                  && reset.response.status == 200
                  && reset.users[i].passwordHash == c.hash(password)
                  && FirstWhere(reset.users, WithResetToken(Str(token))).None?)
            && (usedAt > expiry ==> reset.response == ErrorResponse(400, ExpiredResetToken) && reset.users == issued)
  {
    var t := Str(token);
    var body := map["token" := t, "newPassword" := password];
    assert Prop(body, "token") == t && Prop(body, "newPassword") == password;
    assert FirstWhere(issued, WithResetToken(t)) == Some(i);
    if usedAt <= expiry {
      var h := c.hash(password).value;
      UpdateHitsOwner(issued, i, ApplyReset(h, usedAt));
      var reset := ResetSpec(issued, body, c, usedAt);
      assert reset.users == issued[i := ApplyReset(h, usedAt)(issued[i])];
      forall k | 0 <= k < |reset.users| ensures !WithResetToken(t)(reset.users[k]) {
        if k != i { assert reset.users[k] == issued[k]; }
      }
    }
  }

  /** After a successful reset the same token is refused: it names no account any more. */
  lemma ResetTokenSingleUse(users: seq<Account>, body: map<string, JsValue>, c: Crypto, now: int, later: int)
    requires UniqueUserIds(users)
    requires ResetSpec(users, body, c, now).response.status == 200
    requires forall i, j :: 0 <= i < j < |users| && WithResetToken(Prop(body, "token"))(users[i]) ==> !WithResetToken(Prop(body, "token"))(users[j])
    ensures ResetSpec(ResetSpec(users, body, c, now).users, body, c, later).response == ErrorResponse(400, BadResetToken)
  {
    var t := Prop(body, "token");
    ResetOutcome(users, body, c, now);
    var i := FirstWhere(users, WithResetToken(t)).value;
    var h := c.hash(Prop(body, "newPassword")).value;
    UpdateHitsOwner(users, i, ApplyReset(h, now));
    var after := ResetSpec(users, body, c, now).users;
    assert after == users[i := ApplyReset(h, now)(users[i])];
    forall k | 0 <= k < |after| ensures !WithResetToken(t)(after[k]) {
      if k < i { assert after[k] == users[k]; }
      else if k > i { assert after[k] == users[k]; assert WithResetToken(t)(users[i]); }
    }
  }
}
