/**
 * The profile endpoints over the Mongoose `User` collection: GET and PATCH on
 * `/api/users/:userId`, and POST on `/api/user/profile` behind the token guard.
 * The collection is a sequence of plain documents in insertion order; a query
 * by user id finds the first document whose `userId` equals the value. The
 * schema has timestamps, so every update also sets `updatedAt`, and an upsert
 * that inserts sets `createdAt`, both to the request's `now`.
 */
module Profiles {
  import opened Wrappers
  import opened JsValues
  import opened Http
  import opened Middleware

  type Doc = map<string, JsValue>

  /** The PATCH whitelist. */
  const AllowedKeys: seq<string> := ["name", "avatarUrl", "gender", "dateOfBirth", "dietaryPreferences", "customDietary", "allergies"]

  /** The seven profile fields of the POST body, the same seven names. */
  const ProfileKeys: set<string> := {"name", "dietaryPreferences", "customDietary", "allergies", "avatarUrl", "gender", "dateOfBirth"}

  const ServerErrorText: string := "Server error"
  const UnknownUserText: string := "Người dùng không tồn tại"
  const UserIdRequiredText: string := "userId is required"
  const ProfileUpdated: string := "Profile updated successfully"

  /** A response and the collection after the request. */
  datatype Step = Step(response: Response, docs: seq<Doc>)

  /** `findOne({ userId })`: the index of the first document with that user id. */
  function FirstWithUserId(docs: seq<Doc>, userId: JsValue): (r: Option<nat>)
    ensures r.Some? ==> r.value < |docs| && Prop(docs[r.value], "userId") == userId
                        && forall k :: 0 <= k < r.value ==> Prop(docs[k], "userId") != userId
    ensures r.None? ==> forall k :: 0 <= k < |docs| ==> Prop(docs[k], "userId") != userId
    decreases |docs|
  {
    if docs == [] then None
    else if Prop(docs[0], "userId") == userId then Some(0)
    else
      match FirstWithUserId(docs[1..], userId)
      case None => None
      case Some(k) => Some(k + 1)
  }

  /** The first document with the id is the one at i when i has it and none before does. */
  lemma FirstWithUserIdAt(docs: seq<Doc>, userId: JsValue, i: nat)
    requires i < |docs| && Prop(docs[i], "userId") == userId
    requires forall k :: 0 <= k < i ==> Prop(docs[k], "userId") != userId
    ensures FirstWithUserId(docs, userId) == Some(i)
  {
    var f := FirstWithUserId(docs, userId);
    assert f.Some?;
  }

  /** The body's fields among `keys` whose value is not `undefined`, with those values. */
  function DefinedFields(body: Doc, keys: set<string>): (r: Doc)
    ensures forall k :: k in r <==> k in keys && Prop(body, k) != Undefined
    ensures forall k :: k in r ==> k in body && r[k] == body[k]
  {
    map k | k in keys && k in body && body[k] != Undefined :: body[k]
  }

  /** `{ $set: s }` on a document: the fields of s replace or join the document's. */
  function ApplySet(doc: Doc, s: Doc): (r: Doc)
    ensures r.Keys == doc.Keys + s.Keys
    ensures forall k :: k in s ==> r[k] == s[k]
    ensures forall k :: k in doc && k !in s ==> r[k] == doc[k]
  {
    doc + s
  }

  /** The user id and the timestamp fields are neither whitelisted nor profile fields, so a body cannot set them. */
  lemma TimestampsNotInBody()
    ensures "userId" !in AllowedKeys && "updatedAt" !in AllowedKeys && "createdAt" !in AllowedKeys
    ensures "updatedAt" !in ProfileKeys && "createdAt" !in ProfileKeys
  {
  }

  /** The update Mongoose sends for `{ $set: s }` on a schema with timestamps. */
  function Stamped(s: Doc, now: JsValue): (r: Doc)
    ensures r.Keys == s.Keys + {"updatedAt"} && r["updatedAt"] == now
    ensures forall k :: k in s && k != "updatedAt" ==> r[k] == s[k]
  {
    s["updatedAt" := now]
  }

  /** The document an upsert inserts before applying `$set`: the query's `userId` and `createdAt`. */
  function Inserted(userId: string, now: JsValue): Doc {
    map["userId" := Str(userId), "createdAt" := now]
  }

  /** Setting the same fields twice is setting them once. */
  lemma ApplySetIdempotent(doc: Doc, s: Doc)
    ensures ApplySet(ApplySet(doc, s), s) == ApplySet(doc, s)
  {
    assert ApplySet(ApplySet(doc, s), s).Keys == ApplySet(doc, s).Keys;
  }

  /** The PATCH loop: `for (const key of allowed) if (req.body[key] !== undefined) $set[key] = req.body[key]`. */
  method BuildSet(body: Doc) returns (s: Doc)
    ensures s == DefinedFields(body, set k | k in AllowedKeys)
  {
    s := map[];
    for i := 0 to |AllowedKeys|
      invariant s == DefinedFields(body, set k | k in AllowedKeys[..i])
    {
      var key := AllowedKeys[i];
      assert AllowedKeys[..i + 1] == AllowedKeys[..i] + [key];
      if Prop(body, key) != Undefined {
        s := s[key := body[key]];
      }
    }
    assert AllowedKeys[..|AllowedKeys|] == AllowedKeys;
  }

  /** PATCH: `findOneAndUpdate({ userId }, { $set }, { upsert: true, new: true })`. */
  function PatchSpec(docs: seq<Doc>, userId: string, body: Doc, now: JsValue): Step {
    var s := Stamped(DefinedFields(body, set k | k in AllowedKeys), now);
    match FirstWithUserId(docs, Str(userId))
    case Some(i) =>
      var updated := ApplySet(docs[i], s);
      Step(Response(200, map["user" := Obj(updated)]), docs[i := updated])
    case None =>
      var created := ApplySet(Inserted(userId, now), s);
      Step(Response(200, map["user" := Obj(created)]), docs + [created])
  }

  /**
   * A PATCH writes exactly the whitelisted fields the body defines and
   * `updatedAt`, leaves every other field of the user as it was, ignores every
   * other body field, and creates the user, with `createdAt`, when there is none.
   */
  lemma PatchWritesWhitelist(docs: seq<Doc>, userId: string, body: Doc, now: JsValue)
    ensures var st := PatchSpec(docs, userId, body, now);
            var found := FirstWithUserId(docs, Str(userId));
            var before := if found.Some? then docs[found.value] else Inserted(userId, now);
            var after := st.response.body["user"].fields;
            && st.response.status == 200 && st.response.body["user"].Obj?
            && (found.Some? ==> st.docs == docs[found.value := after])
            && (found.None? ==> st.docs == docs + [after] && Prop(after, "createdAt") == now)
            && Prop(after, "userId") == Str(userId)
            && Prop(after, "updatedAt") == now
            && (forall k :: k in after <==> k in before || k == "updatedAt" || (k in AllowedKeys && Prop(body, k) != Undefined))
            && (forall k :: k in AllowedKeys && Prop(body, k) != Undefined ==> after[k] == body[k])
            && (forall k :: k in before && k != "updatedAt" && !(k in AllowedKeys && Prop(body, k) != Undefined) ==> after[k] == before[k])
  {
    TimestampsNotInBody();
  }

  /** Sending the same PATCH twice at the same instant leaves the collection as sending it once. */
  lemma PatchIdempotent(docs: seq<Doc>, userId: string, body: Doc, now: JsValue)
    ensures var once := PatchSpec(docs, userId, body, now).docs;
            PatchSpec(once, userId, body, now).docs == once
  {
    var s := Stamped(DefinedFields(body, set k | k in AllowedKeys), now);
    var once := PatchSpec(docs, userId, body, now).docs;
    TimestampsNotInBody();
    assert "userId" !in s;
    match FirstWithUserId(docs, Str(userId))
    case Some(i) =>
      var updated := ApplySet(docs[i], s);
      assert Prop(updated, "userId") == Str(userId);
      forall k | 0 <= k < i ensures Prop(once[k], "userId") != Str(userId) {
        assert once[k] == docs[k];
      }
      FirstWithUserIdAt(once, Str(userId), i);
      ApplySetIdempotent(docs[i], s);
    case None =>
      var created := ApplySet(Inserted(userId, now), s);
      assert Prop(created, "userId") == Str(userId);
      forall k | 0 <= k < |docs| ensures Prop(once[k], "userId") != Str(userId) {
        assert once[k] == docs[k];
      }
      FirstWithUserIdAt(once, Str(userId), |docs|);
      ApplySetIdempotent(Inserted(userId, now), s);
  }

  /** GET: the Mongoose document, else the native one, with `dateOfBirth` backfilled for legacy users. */
  function GetSpec(docs: seq<Doc>, userId: string, mongooseUp: bool, native: Lookup, now: JsValue): Step {
    if !mongooseUp then Step(ErrorResponse(500, ServerErrorText), docs)
    else
      var found := FirstWithUserId(docs, Str(userId));
      var user := if found.Some? then Some(docs[found.value]) else if native.Found? then Some(native.doc) else None;
      match user
      case None => Step(ErrorResponse(404, UnknownUserText), docs)
      case Some(u) =>
        if Prop(u, "dateOfBirth") != Undefined then Step(Response(200, map["user" := Obj(u)]), docs)
        else
          var toSet := map["dateOfBirth" := Str("")];
          var docs' := if found.Some? then docs[found.value := ApplySet(docs[found.value], Stamped(toSet, now))] else docs;
          Step(Response(200, map["user" := Obj(ApplySet(u, toSet))]), docs')
  }

  /**
   * GET answers 404 when neither store has the user (a failing native store
   * counts as not having it). A user with a `dateOfBirth` is returned as stored
   * and nothing is written; otherwise the returned user gains an empty
   * `dateOfBirth`, and so does the Mongoose document when the user came from it,
   * together with `updatedAt`.
   */
  lemma GetBackfill(docs: seq<Doc>, userId: string, native: Lookup, now: JsValue)
    ensures var st := GetSpec(docs, userId, true, native, now);
            var found := FirstWithUserId(docs, Str(userId));
            && (st.response == ErrorResponse(404, UnknownUserText) <==> found.None? && !native.Found?)
            && (found.None? && !native.Found? ==> st.docs == docs)
            && (found.Some? || native.Found? ==>
                  var u := if found.Some? then docs[found.value] else native.doc;
                  && st.response.status == 200 && st.response.body["user"].Obj?
                  && var returned := st.response.body["user"].fields;
                  && (Prop(u, "dateOfBirth") != Undefined ==> returned == u && st.docs == docs)
                  && (Prop(u, "dateOfBirth") == Undefined ==>
                        && returned == u["dateOfBirth" := Str("")]
                        && (found.Some? ==> st.docs == docs[found.value := returned["updatedAt" := now]])
                        && (found.None? ==> st.docs == docs)))
  {
    var st := GetSpec(docs, userId, true, native, now);
    var found := FirstWithUserId(docs, Str(userId));
    if found.None? && !native.Found? {
      assert st == Step(ErrorResponse(404, UnknownUserText), docs);
    } else {
      var u := if found.Some? then docs[found.value] else native.doc;
      if Prop(u, "dateOfBirth") != Undefined {
        assert st == Step(Response(200, map["user" := Obj(u)]), docs);
      } else {
        var returned := u["dateOfBirth" := Str("")];
        BackfillStamp(u, now);
        assert st.response == Response(200, map["user" := Obj(returned)]);
        if found.Some? {
          assert st.docs == docs[found.value := returned["updatedAt" := now]];
        }
      }
    }
  }

  /** The backfilled user gains exactly `dateOfBirth`, and the write is that user plus `updatedAt`. */
  lemma BackfillStamp(d: Doc, now: JsValue)
    ensures ApplySet(d, map["dateOfBirth" := Str("")]) == d["dateOfBirth" := Str("")]
    ensures ApplySet(d, Stamped(map["dateOfBirth" := Str("")], now)) == d["dateOfBirth" := Str("")]["updatedAt" := now]
  {
    var l := ApplySet(d, Stamped(map["dateOfBirth" := Str("")], now));
    var r := d["dateOfBirth" := Str("")]["updatedAt" := now];
    assert ApplySet(d, map["dateOfBirth" := Str("")]).Keys == d["dateOfBirth" := Str("")].Keys;
    assert l.Keys == r.Keys;
    forall k | k in l ensures l[k] == r[k] {
      if k == "updatedAt" {
      } else if k == "dateOfBirth" {
      }
    }
  }

  /** The `users` router on the collection it writes. */
  class ProfileStore {
    var docs: seq<Doc>

    constructor(docs: seq<Doc>)
      ensures this.docs == docs
    {
      this.docs := docs;
    }

    /** PATCH `/api/users/:userId`. */
    method Patch(userId: string, body: Doc, now: JsValue) returns (response: Response)
      modifies this
      ensures Step(response, docs) == PatchSpec(old(docs), userId, body, now)
    {
      var s := BuildSet(body);
      s := Stamped(s, now);
      var found := FirstWithUserId(docs, Str(userId));
      if found.Some? {
        var updated := ApplySet(docs[found.value], s);
        docs := docs[found.value := updated];
        return Response(200, map["user" := Obj(updated)]);
      }
      var created := ApplySet(Inserted(userId, now), s);
      docs := docs + [created];
      return Response(200, map["user" := Obj(created)]);
    }

    /** GET `/api/users/:userId`. */
    method Get(userId: string, mongooseUp: bool, native: Lookup, now: JsValue) returns (response: Response)
      modifies this
      ensures Step(response, docs) == GetSpec(old(docs), userId, mongooseUp, native, now)
    {
      if !mongooseUp {
        return ErrorResponse(500, ServerErrorText);
      }
      var found := FirstWithUserId(docs, Str(userId));
      var user: Doc;
      if found.Some? {
        user := docs[found.value];
      } else if native.Found? {
        user := native.doc;
      } else {
        return ErrorResponse(404, UnknownUserText);
      }
      var toSet: Doc := map[];
      if Prop(user, "dateOfBirth") == Undefined {
        toSet := toSet["dateOfBirth" := Str("")];
      }
      if |toSet| > 0 {
        if found.Some? {
          docs := docs[found.value := ApplySet(docs[found.value], Stamped(toSet, now))];
        }
        user := ApplySet(user, toSet);
      }
      return Response(200, map["user" := Obj(user)]);
    }

    /** POST `/api/user/profile`, after `validateToken` has set `req.user`. */
    method UpdateProfile(tokenUser: Option<SessionUser>, body: Doc, now: JsValue) returns (response: Response)
      modifies this
      ensures Step(response, docs) == ProfileSpec(old(docs), tokenUser, body, now)
    {
      var userId := Prop(body, "userId");
      var tokenUserId := if tokenUser.Some? then tokenUser.value.userId else Undefined;
      if !Truthy(userId) && !Truthy(tokenUserId) {
        return ErrorResponse(400, UserIdRequiredText);
      }
      var target := Or(userId, tokenUserId);
      var found := FirstWithUserId(docs, target);
      if found.None? {
        return ErrorResponse(404, UnknownUserText);
      }
      var user := docs[found.value];
      if NoUpdateData(body) {
        return Response(200, map["success" := Bool(true), "user" := ProfileSummary(user)]);
      }
      docs := docs[found.value := ApplySet(user, Stamped(DefinedFields(body, ProfileKeys), now))];
      return Response(200, map["success" := Bool(true), "message" := Str(ProfileUpdated)]);
    }
  }

  /** All seven profile fields are falsy: the request only checks the user. */
  predicate NoUpdateData(body: Doc) {
    forall k :: k in ProfileKeys ==> !Truthy(Prop(body, k))
  }

  /** The user as the validation-only answer shows it. */
  function ProfileSummary(user: Doc): JsValue {
    Obj(map["userId" := Prop(user, "userId"), "email" := Prop(user, "email"), "name" := Prop(user, "name")])
  }

  /** The body's `userId`, else the token's. */
  function TargetUserId(tokenUser: Option<SessionUser>, body: Doc): JsValue {
    Or(Prop(body, "userId"), if tokenUser.Some? then tokenUser.value.userId else Undefined)
  }

  function ProfileSpec(docs: seq<Doc>, tokenUser: Option<SessionUser>, body: Doc, now: JsValue): Step {
    var target := TargetUserId(tokenUser, body);
    if !Truthy(target) then Step(ErrorResponse(400, UserIdRequiredText), docs)
    else
      match FirstWithUserId(docs, target)
      case None => Step(ErrorResponse(404, UnknownUserText), docs)
      case Some(i) =>
        if NoUpdateData(body) then Step(Response(200, map["success" := Bool(true), "user" := ProfileSummary(docs[i])]), docs)
        else Step(Response(200, map["success" := Bool(true), "message" := Str(ProfileUpdated)]),
                  docs[i := ApplySet(docs[i], Stamped(DefinedFields(body, ProfileKeys), now))])
  }

  /**
   * The profile POST: 400 exactly when neither the body nor the token names a
   * user, with the body's id taking precedence; 404 for an unknown target; no
   * write when all seven fields are falsy; otherwise exactly the defined fields
   * (falsy ones such as '' included) and `updatedAt` are written to the
   * target. It never creates a user.
   */
  lemma ProfileOutcome(docs: seq<Doc>, tokenUser: Option<SessionUser>, body: Doc, now: JsValue)
    ensures var st := ProfileSpec(docs, tokenUser, body, now);
            var target := TargetUserId(tokenUser, body);
            && |st.docs| == |docs|
            && (Truthy(Prop(body, "userId")) ==> target == Prop(body, "userId"))
            && (st.response == ErrorResponse(400, UserIdRequiredText) <==>
                  !Truthy(Prop(body, "userId")) && !(tokenUser.Some? && Truthy(tokenUser.value.userId)))
            && (Truthy(target) && FirstWithUserId(docs, target).None? ==> st.response == ErrorResponse(404, UnknownUserText))
            && (st.docs != docs ==> !NoUpdateData(body) && FirstWithUserId(docs, target).Some?)
            && (Truthy(target) && FirstWithUserId(docs, target).Some? && !NoUpdateData(body) ==>
                  var i := FirstWithUserId(docs, target).value;
                  && st.docs == docs[i := ApplySet(docs[i], Stamped(DefinedFields(body, ProfileKeys), now))]
                  && st.docs[i]["updatedAt"] == now
                  && forall k :: k in ProfileKeys && Prop(body, k) != Undefined ==> st.docs[i][k] == body[k])
  {
    TimestampsNotInBody();
    assert ErrorResponse(400, UserIdRequiredText) != ErrorResponse(404, UnknownUserText);
  }

  /** A defined but empty field is written, where the short-circuit test would call it absent. */
  lemma EmptyStringIsWritten(docs: seq<Doc>, tokenUser: Option<SessionUser>, body: Doc, now: JsValue)
    requires Truthy(TargetUserId(tokenUser, body)) && FirstWithUserId(docs, TargetUserId(tokenUser, body)).Some?
    requires Truthy(Prop(body, "name")) && Prop(body, "gender") == Str("")
    ensures var i := FirstWithUserId(docs, TargetUserId(tokenUser, body)).value;
            ProfileSpec(docs, tokenUser, body, now).docs[i]["gender"] == Str("")
  {
    ProfileOutcome(docs, tokenUser, body, now);
  }
}
