/**
 * The photo handler: validate the request, check the user (an error here is
 * fatal), upload the image (a failure here is not), ask a vision model about
 * the photo, parse the reply, and store history records: one for a recognised
 * dish, or one per suggested recipe in ingredients mode, written in order until
 * the first one that fails.
 */
module PhotoHandler {
  import opened Wrappers
  import opened JsValues
  import opened Gemini
  import opened Generation
  import opened Normalizer
  import opened Http
  import opened Cloudinary

  /** What the photo is analysed for. */
  datatype PhotoMode = RecipeMode | IngredientsMode

  /** `mode = 'recipe'` (the default applies only when the field is absent), then the two accepted values. */
  function ModeOf(mode: JsValue): (r: Option<PhotoMode>)
    ensures r == Some(RecipeMode) <==> mode == Undefined || mode == Str("recipe")
    ensures r == Some(IngredientsMode) <==> mode == Str("ingredients")
  {
    if mode == Undefined || mode == Str("recipe") then Some(RecipeMode)
    else if mode == Str("ingredients") then Some(IngredientsMode)
    else None
  }

  const Required: string := "imageBase64 and userId are required"
  const BadMode: string := "mode must be either \"recipe\" or \"ingredients\""
  const UnknownUser: string := "Người dùng không tồn tại"
  const UserCheckError: string := "Lỗi xác thực người dùng. Vui lòng thử lại sau."
  const CannotAnalyse: string := "Không thể phân tích ảnh"
  const DefaultServings: string := "1-2 người"
  const PhotoScan: string := "Photo scan"

  /** `{ ...v }` for the values a reply can hold: an object's own fields; nothing for the others. */
  function Spread(v: JsValue): (r: map<string, JsValue>)
    ensures v.Obj? ==> r == v.fields
    ensures !v.Obj? ==> r == map[]
  {
    if v.Obj? then v.fields else map[]
  }

  /**
   * The `userPreferences` of a photo record: the recipe's own difficulty and
   * servings when truthy, else 'Dễ' and '1-2 người', so a default never
   * replaces a value that is present. Reading them from `null` throws.
   */
  function Preferences(recipe: JsValue): (r: Result<JsValue, TypeError>)
    ensures r.Failure? <==> recipe.Null? || recipe.Undefined?
    ensures r.Success? ==> r.value.Obj? && r.value.fields.Keys == {"difficulty", "timeRange", "servings"}
                           && Truthy(r.value.fields["difficulty"]) && Truthy(r.value.fields["servings"])
                           && r.value.fields["timeRange"] == Str("")
    ensures r.Success? && Truthy(OptGet(recipe, "difficulty")) ==> r.value.fields["difficulty"] == OptGet(recipe, "difficulty")
    ensures r.Success? && !Truthy(OptGet(recipe, "difficulty")) ==> r.value.fields["difficulty"] == Str(Easy)
    ensures r.Success? && Truthy(OptGet(recipe, "servings")) ==> r.value.fields["servings"] == OptGet(recipe, "servings")
    ensures r.Success? && !Truthy(OptGet(recipe, "servings")) ==> r.value.fields["servings"] == Str(DefaultServings)
  {
    match Get(recipe, "difficulty")
    case Failure(_) => Failure(TypeError)
    case Success(difficulty) =>
      Success(Obj(map["difficulty" := Or(difficulty, Str(Easy)), "timeRange" := Str(""),
                      "servings" := Or(OptGet(recipe, "servings"), Str(DefaultServings))]))
  }

  /**
   * `result.detectedIngredients?.join(', ') || ''`: nothing for `null` or a
   * missing list, the joined list for an array, and a thrown TypeError for any
   * other value, which has no `join` method.
   */
  function SourceIngredients(detected: JsValue): (r: Result<string, TypeError>)
    ensures r.Failure? <==> !(detected.Null? || detected.Undefined? || detected.Arr?)
    ensures detected.Null? || detected.Undefined? ==> r == Success("")
    ensures detected.Arr? ==> r == Success(JoinValues(detected.items, ", "))
  {
    match detected
    case Null => Success("")
    case Undefined => Success("")
    case Arr(xs) => Success(JoinValues(xs, ", "))
    case _ => Failure(TypeError)
  }

  /** What every record of one ingredients-mode batch shares, and the store. */
  datatype Batch = Batch(detected: JsValue, userId: JsValue, imageUrl: Option<string>, now: string,
                         save: (HistoryRecord, nat) -> Saved)

  /** The history record for one suggested recipe, or the TypeError building it throws. */
  function SuggestionRecord(suggestion: JsValue, b: Batch): (r: Result<HistoryRecord, TypeError>)
    ensures r.Failure? <==> SourceIngredients(b.detected).Failure? || suggestion.Null? || suggestion.Undefined?
    ensures r.Success? ==> && r.value.sourceType == PhotoIngredients && r.value.userId == b.userId
                           && r.value.imageUrl == b.imageUrl
  {
    match SourceIngredients(b.detected)
    case Failure(_) => Failure(TypeError)
    case Success(source) =>
      match Preferences(suggestion)
      case Failure(_) => Failure(TypeError)
      case Success(preferences) =>
        var recipe := Spread(suggestion)["detectedIngredients" := Or(b.detected, Arr([]))]["createdAt" := Str(b.now)]
                        ["userId" := b.userId]["sourceIngredients" := Str(source)]["userPreferences" := preferences];
        Success(HistoryRecord(b.userId, Obj(recipe), Str(source), PhotoIngredients, b.imageUrl))
  }

  /**
   * A suggested recipe's record keeps the suggestion's own fields besides the
   * metadata, lists the detected ingredients (an empty list when there are
   * none), and names them joined as its source.
   */
  lemma SuggestionRecordShape(suggestion: JsValue, b: Batch)
    requires SuggestionRecord(suggestion, b).Success?
    ensures var r := SuggestionRecord(suggestion, b).value;
            && r.sourceIngredients == Str(SourceIngredients(b.detected).value)
            && r.recipe.Obj?
            && r.recipe.fields.Keys == Spread(suggestion).Keys +
                 {"detectedIngredients", "createdAt", "userId", "sourceIngredients", "userPreferences"}
            && (forall k :: k in Spread(suggestion) && k !in {"detectedIngredients", "createdAt", "userId", "sourceIngredients", "userPreferences"} ==>
                  r.recipe.fields[k] == Spread(suggestion)[k])
            && r.recipe.fields["detectedIngredients"] == Or(b.detected, Arr([]))
            && r.recipe.fields["sourceIngredients"] == r.sourceIngredients
  {
  }

  /** The ids pushed so far, the records stored so far, and whether the loop ran to its end. */
  datatype SaveRun = SaveRun(ids: seq<string>, stored: seq<HistoryRecord>, complete: bool)

  /**
   * The state after the first n turns of the `for … of result.suggestedRecipes`
   * loop: a thrown error (building a record, or storing it) leaves the loop for
   * good.
   */
  function SaveAfter(suggestions: seq<JsValue>, n: nat, b: Batch): SaveRun
    requires n <= |suggestions|
  {
    if n == 0 then SaveRun([], [], true)
    else
      var s := SaveAfter(suggestions, n - 1, b);
      if !s.complete then s
      else
        match SuggestionRecord(suggestions[n - 1], b)
        case Failure(_) => s.(complete := false)
        case Success(record) =>
          match b.save(record, n - 1)
          case SavedAs(id) => SaveRun(s.ids + [id], s.stored + [record], true)
          case SaveFailed => s.(complete := false)
  }

  /** Once the loop has been left, later turns change nothing. */
  lemma {:induction false} LeftLoopStaysLeft(suggestions: seq<JsValue>, n: nat, m: nat, b: Batch)
    requires n <= m <= |suggestions|
    requires !SaveAfter(suggestions, n, b).complete
    ensures SaveAfter(suggestions, m, b) == SaveAfter(suggestions, n, b)
    decreases m - n
  {
    if n < m {
      LeftLoopStaysLeft(suggestions, n, m - 1, b);
    }
  }

  /** A turn that leaves the loop complete built its record, stored it and pushed the id. */
  lemma CompleteTurn(suggestions: seq<JsValue>, n: nat, b: Batch)
    requires 0 < n <= |suggestions|
    requires SaveAfter(suggestions, n, b).complete
    ensures var p := SaveAfter(suggestions, n - 1, b);
            && p.complete
            && SuggestionRecord(suggestions[n - 1], b).Success?
            && var record := SuggestionRecord(suggestions[n - 1], b).value;
               && b.save(record, n - 1).SavedAs?
               && SaveAfter(suggestions, n, b) == SaveRun(p.ids + [b.save(record, n - 1).id], p.stored + [record], true)
  {
  }

  /**
   * A loop that ran to its end stored one record per suggestion, in order, and
   * pushed the id each write returned.
   */
  lemma {:induction false} CompleteRunSavedEverything(suggestions: seq<JsValue>, n: nat, b: Batch)
    requires n <= |suggestions|
    requires SaveAfter(suggestions, n, b).complete
    ensures var s := SaveAfter(suggestions, n, b);
            && |s.ids| == n && |s.stored| == n
            && forall i :: 0 <= i < n ==>
                 && SuggestionRecord(suggestions[i], b) == Success(s.stored[i])
                 && b.save(s.stored[i], i) == SavedAs(s.ids[i])
  {
    if n > 0 {
      CompleteTurn(suggestions, n, b);
      CompleteRunSavedEverything(suggestions, n - 1, b);
      var p := SaveAfter(suggestions, n - 1, b);
      var record := SuggestionRecord(suggestions[n - 1], b).value;
      SavedTurnsExtend(suggestions, p.ids, p.stored, b.save(record, n - 1).id, record, b);
    }
  }

  /** One more built and stored suggestion extends the records and ids in step. */
  lemma SavedTurnsExtend(suggestions: seq<JsValue>, ids: seq<string>, stored: seq<HistoryRecord>,
                         id: string, record: HistoryRecord, b: Batch)
    requires |ids| == |stored| < |suggestions|
    requires forall i :: 0 <= i < |stored| ==>
               && SuggestionRecord(suggestions[i], b) == Success(stored[i])
               && b.save(stored[i], i) == SavedAs(ids[i])
    requires SuggestionRecord(suggestions[|stored|], b) == Success(record)
    requires b.save(record, |stored|) == SavedAs(id)
    ensures forall i :: 0 <= i <= |stored| ==>
              && SuggestionRecord(suggestions[i], b) == Success((stored + [record])[i])
              && b.save((stored + [record])[i], i) == SavedAs((ids + [id])[i])
  {
  }

  /**
   * A loop that was left early stored the records of the suggestions before the
   * one that failed, and that one either could not be built or could not be stored.
   */
  lemma {:induction false} IncompleteRunStoppedAtFailure(suggestions: seq<JsValue>, n: nat, b: Batch)
    requires n <= |suggestions|
    requires !SaveAfter(suggestions, n, b).complete
    ensures var s := SaveAfter(suggestions, n, b);
            var k := |s.stored|;
            && k < n && SaveAfter(suggestions, k, b).complete && s.stored == SaveAfter(suggestions, k, b).stored
            && (SuggestionRecord(suggestions[k], b).Failure?
                || b.save(SuggestionRecord(suggestions[k], b).value, k) == SaveFailed)
  {
    var p := SaveAfter(suggestions, n - 1, b);
    if !p.complete {
      IncompleteRunStoppedAtFailure(suggestions, n - 1, b);
    } else {
      CompleteRunSavedEverything(suggestions, n - 1, b);
    }
  }

  /** A turn whose record cannot be built or stored leaves the loop with what was stored before it. */
  lemma TurnFails(suggestions: seq<JsValue>, i: nat, b: Batch)
    requires i < |suggestions| && SaveAfter(suggestions, i, b).complete
    requires SuggestionRecord(suggestions[i], b).Failure? || b.save(SuggestionRecord(suggestions[i], b).value, i) == SaveFailed
    ensures SaveAfter(suggestions, |suggestions|, b) == SaveAfter(suggestions, i, b).(complete := false)
  {
    LeftLoopStaysLeft(suggestions, i + 1, |suggestions|, b);
  }

  /** A turn whose record is stored appends its id and the record. */
  lemma TurnSaves(suggestions: seq<JsValue>, i: nat, b: Batch)
    requires i < |suggestions| && SaveAfter(suggestions, i, b).complete
    requires SuggestionRecord(suggestions[i], b).Success?
    requires b.save(SuggestionRecord(suggestions[i], b).value, i).SavedAs?
    ensures var s := SaveAfter(suggestions, i, b);
            var record := SuggestionRecord(suggestions[i], b).value;
            SaveAfter(suggestions, i + 1, b) == SaveRun(s.ids + [b.save(record, i).id], s.stored + [record], true)
  {
  }

  /** The ingredients-mode loop: build each record, store it, push its id; the first error ends the loop. */
  method SaveSuggestions(suggestions: seq<JsValue>, b: Batch) returns (ids: seq<string>, stored: seq<HistoryRecord>, complete: bool)
    ensures SaveRun(ids, stored, complete) == SaveAfter(suggestions, |suggestions|, b)
  {
    ids, stored := [], [];
    var i := 0;
    while i < |suggestions|
      invariant 0 <= i <= |suggestions|
      invariant SaveAfter(suggestions, i, b) == SaveRun(ids, stored, true)
    {
      var record := SuggestionRecord(suggestions[i], b);
      if record.Failure? {
        TurnFails(suggestions, i, b);
        return ids, stored, false;
      }
      var saved := b.save(record.value, i);
      if saved.SaveFailed? {
        TurnFails(suggestions, i, b);
        return ids, stored, false;
      }
      TurnSaves(suggestions, i, b);
      ids := ids + [saved.id];
      stored := stored + [record.value];
      i := i + 1;
    }
    complete := true;
  }

  /** The ids as the array stored in `result.savedIds`. */
  function IdValues(ids: seq<string>): (r: seq<JsValue>)
    ensures |r| == |ids| && forall i :: 0 <= i < |ids| ==> r[i] == Str(ids[i])
  {
    seq(|ids|, i requires 0 <= i < |ids| => Str(ids[i]))
  }

  /**
   * Everything the handler depends on besides the request body. `connects`
   * says whether `connectMongoose()` succeeds before the history writes.
   */
  datatype PhotoEnv = PhotoEnv(
    mongoose: Lookup, native: Lookup, upload: Uploader,
    prefs: seq<string>, listing: Listing, fallbackListing: Listing,
    call: Provider, nameOf: string -> string, render: PhotoMode -> string,
    parse: Parser, now: string, connects: bool, save: (HistoryRecord, nat) -> Saved)

  /** The response and the history records written, in the order they were written. */
  datatype Outcome = Outcome(response: Response, stored: seq<HistoryRecord>)

  function Ok(result: JsValue): Response {
    Response(200, map["success" := Bool(true), "result" := result])
  }

  /** The URL of the uploaded image; `null` when the upload threw. */
  function ImageUrl(image: JsValue, env: PhotoEnv): Option<string> {
    match UploadImage(image, Some(DefaultFolder), env.upload)
    case Success(url) => Some(url)
    case Failure(_) => None
  }

  /**
   * Recipe mode: a reply with a truthy `dishName` is stored once; the id is
   * added to the reply when the connection and the write succeed.
   */
  function StoreDish(m: map<string, JsValue>, userId: JsValue, imageUrl: Option<string>, env: PhotoEnv): Outcome {
    if !Truthy(Prop(m, "dishName")) || !env.connects then Outcome(Ok(Obj(m)), [])
    else
      var preferences := Obj(map["difficulty" := Or(Prop(m, "difficulty"), Str(Easy)), "timeRange" := Str(""),
                                 "servings" := Or(Prop(m, "servings"), Str(DefaultServings))]);
      var recipe := m["createdAt" := Str(env.now)]["userId" := userId]["sourceIngredients" := Str("")]
                     ["userPreferences" := preferences];
      var record := HistoryRecord(userId, Obj(recipe), Str(PhotoScan), PhotoRecipe, imageUrl);
      match env.save(record, 0)
      case SavedAs(id) => Outcome(Ok(Obj(m["id" := Str(id)])), [record])
      case SaveFailed => Outcome(Ok(Obj(m)), [])
  }

  /**
   * Ingredients mode: each suggested recipe is stored; `savedIds` is added only
   * when the connection and every write succeeded.
   */
  function StoreSuggestions(m: map<string, JsValue>, userId: JsValue, imageUrl: Option<string>, env: PhotoEnv): Outcome {
    var suggestions := Prop(m, "suggestedRecipes");
    if !suggestions.Arr? || !env.connects then Outcome(Ok(Obj(m)), [])
    else
      var b := Batch(Prop(m, "detectedIngredients"), userId, imageUrl, env.now, env.save);
      var s := SaveAfter(suggestions.items, |suggestions.items|, b);
      if s.complete then Outcome(Ok(Obj(m["savedIds" := Arr(IdValues(s.ids))])), s.stored)
      else Outcome(Ok(Obj(m)), s.stored)
  }

  /** From the parsed reply to the response. A reply of `null` makes the mode's property read throw. */
  function Store(mode: PhotoMode, result: JsValue, userId: JsValue, imageUrl: Option<string>, env: PhotoEnv): Outcome {
    if result.Null? || result.Undefined? then Outcome(InternalError(None), [])
    else if !result.Obj? then Outcome(Ok(result), [])
    else if mode == RecipeMode then StoreDish(result.fields, userId, imageUrl, env)
    else StoreSuggestions(result.fields, userId, imageUrl, env)
  }

  /** The whole handler. */
  function HandlePhoto(body: map<string, JsValue>, env: PhotoEnv): Outcome {
    var image := Prop(body, "imageBase64");
    var userId := Prop(body, "userId");
    var mode := ModeOf(Prop(body, "mode"));
    if !Truthy(image) || !Truthy(userId) then Outcome(ErrorResponse(400, Required), [])
    else if mode.None? then Outcome(ErrorResponse(400, BadMode), [])
    else
      match CheckUser(env.mongoose, env.native)
      case UserMissing => Outcome(ErrorResponse(404, UnknownUser), [])
      case CheckFailed => Outcome(ErrorResponse(500, UserCheckError), [])
      case UserFound =>
        var imageUrl := ImageUrl(image, env);
        match GetModel(env.prefs, env.listing, [])
        case Failure(e) => Outcome(InternalError(Some(e.message)), [])
        case Success(model) =>
          var parts := [TextPart(env.render(mode.value)), InlineData("image/jpeg", ToString(image))];
          var g := Run(env.prefs, env.fallbackListing, env.call, env.nameOf, SingleName, model, parts);
          match FailureMessage(g, CannotAnalyse)
          case Some(message) => Outcome(ErrorResponse(503, message), [])
          case None =>
            match ParsePhotoReply(g.text.value, env.parse)
            case Valid(result) => Store(mode.value, result, userId, imageUrl, env)
            case _ => Outcome(Response(500, map["error" := Str("Failed to parse AI response"),
                                                "rawResponse" := Str(g.text.value)]), [])
  }

  /** A request is rejected with 400 exactly when the image or the user id is missing, or the mode is unknown. */
  lemma RequestChecks(body: map<string, JsValue>, env: PhotoEnv)
    ensures HandlePhoto(body, env).response.status == 400 <==>
              !Truthy(Prop(body, "imageBase64")) || !Truthy(Prop(body, "userId")) || ModeOf(Prop(body, "mode")).None?
    ensures HandlePhoto(body, env).response.status == 400 ==> HandlePhoto(body, env).stored == []
  {
    var image := Prop(body, "imageBase64");
    var userId := Prop(body, "userId");
    var mode := ModeOf(Prop(body, "mode"));
    if Truthy(image) && Truthy(userId) && mode.Some? && CheckUser(env.mongoose, env.native) == UserFound {
      match GetModel(env.prefs, env.listing, [])
      case Failure(_) =>
      case Success(model) =>
        var parts := [TextPart(env.render(mode.value)), InlineData("image/jpeg", ToString(image))];
        var g := Run(env.prefs, env.fallbackListing, env.call, env.nameOf, SingleName, model, parts);
        if FailureMessage(g, CannotAnalyse).None? && ParsePhotoReply(g.text.value, env.parse).Valid? {
          StoreStatuses(mode.value, ParsePhotoReply(g.text.value, env.parse).value, userId, ImageUrl(image, env), env);
        }
    }
  }

  /**
   * Once the user is known and a model chosen, the image is sent as the prompt
   * followed by the JPEG data; a generation without text answers 503 with the
   * message of its last error, and a reply that does not parse answers 500 with
   * the reply itself. Neither writes a record.
   */
  lemma GenerationFailures(body: map<string, JsValue>, env: PhotoEnv, model: string)
    requires Truthy(Prop(body, "imageBase64")) && Truthy(Prop(body, "userId")) && ModeOf(Prop(body, "mode")).Some?
    requires CheckUser(env.mongoose, env.native) == UserFound
    requires GetModel(env.prefs, env.listing, []) == Success(model)
    ensures var image := Prop(body, "imageBase64");
            var parts := [TextPart(env.render(ModeOf(Prop(body, "mode")).value)), InlineData("image/jpeg", ToString(image))];
            var g := Run(env.prefs, env.fallbackListing, env.call, env.nameOf, SingleName, model, parts);
            var out := HandlePhoto(body, env);
            && (FailureMessage(g, CannotAnalyse).Some? ==>
                  out == Outcome(ErrorResponse(503, FailureMessage(g, CannotAnalyse).value), []))
            && (FailureMessage(g, CannotAnalyse).None? && env.parse(CleanText(g.text.value)).None? ==>
                  && out.stored == [] && out.response.status == 500
                  && out.response.body["rawResponse"] == Str(g.text.value))
  {
  }

  /** Storing answers 200, or 500 when the reply is `null`; records are written only with a 200. */
  lemma StoreStatuses(mode: PhotoMode, result: JsValue, userId: JsValue, imageUrl: Option<string>, env: PhotoEnv)
    ensures Store(mode, result, userId, imageUrl, env).response.status == if result.Null? || result.Undefined? then 500 else 200
    ensures Store(mode, result, userId, imageUrl, env).stored != [] ==> result.Obj?
  {
  }

  /** Unlike the recipe handler, an error while checking the user is fatal here: 500 and nothing stored. */
  lemma UserCheckErrorStops(body: map<string, JsValue>, env: PhotoEnv)
    requires Truthy(Prop(body, "imageBase64")) && Truthy(Prop(body, "userId")) && ModeOf(Prop(body, "mode")).Some?
    requires CheckUser(env.mongoose, env.native) == CheckFailed
    ensures HandlePhoto(body, env) == Outcome(ErrorResponse(500, UserCheckError), [])
  {
  }

  /** Every record written carries the uploaded image's URL, or none when the upload failed. */
  lemma StoredRecordsCarryImageUrl(body: map<string, JsValue>, env: PhotoEnv)
    ensures forall r :: r in HandlePhoto(body, env).stored ==> r.imageUrl == ImageUrl(Prop(body, "imageBase64"), env)
  {
    var image := Prop(body, "imageBase64");
    var userId := Prop(body, "userId");
    var mode := ModeOf(Prop(body, "mode"));
    if Truthy(image) && Truthy(userId) && mode.Some? && CheckUser(env.mongoose, env.native) == UserFound {
      match GetModel(env.prefs, env.listing, [])
      case Failure(_) =>
      case Success(model) =>
        var parts := [TextPart(env.render(mode.value)), InlineData("image/jpeg", ToString(image))];
        var g := Run(env.prefs, env.fallbackListing, env.call, env.nameOf, SingleName, model, parts);
        if FailureMessage(g, CannotAnalyse).None? && ParsePhotoReply(g.text.value, env.parse).Valid? {
          StoreCarriesImageUrl(mode.value, ParsePhotoReply(g.text.value, env.parse).value, userId, ImageUrl(image, env), env);
        }
    }
  }

  lemma StoreCarriesImageUrl(mode: PhotoMode, result: JsValue, userId: JsValue, imageUrl: Option<string>, env: PhotoEnv)
    ensures forall r :: r in Store(mode, result, userId, imageUrl, env).stored ==> r.imageUrl == imageUrl
  {
    if result.Obj? && mode == IngredientsMode && Prop(result.fields, "suggestedRecipes").Arr? {
      var items := Prop(result.fields, "suggestedRecipes").items;
      var b := Batch(Prop(result.fields, "detectedIngredients"), userId, imageUrl, env.now, env.save);
      StoredRecordsOfBatch(items, |items|, b);
    }
  }

  /** Every record a batch writes is built from one of its suggestions and carries the batch's image URL. */
  lemma {:induction false} StoredRecordsOfBatch(suggestions: seq<JsValue>, n: nat, b: Batch)
    requires n <= |suggestions|
    ensures forall r :: r in SaveAfter(suggestions, n, b).stored ==>
              r.imageUrl == b.imageUrl && r.sourceType == PhotoIngredients && r.userId == b.userId
  {
    if n > 0 {
      StoredRecordsOfBatch(suggestions, n - 1, b);
    }
  }

  /**
   * In recipe mode a reply without a dish name, or a failed connection, leaves
   * the reply unchanged with nothing stored. A reply naming a dish is stored at most once, as a photo
   * recipe from a 'Photo scan', keeping the reply's own fields besides the
   * metadata, with its own difficulty and servings when truthy and the defaults
   * otherwise; the reply gains the new id exactly when the write succeeds.
   */
  lemma DishRecord(m: map<string, JsValue>, userId: JsValue, imageUrl: Option<string>, env: PhotoEnv)
    ensures !Truthy(Prop(m, "dishName")) || !env.connects ==> StoreDish(m, userId, imageUrl, env) == Outcome(Ok(Obj(m)), [])
    ensures var out := StoreDish(m, userId, imageUrl, env);
            && out.response.status == 200 && |out.stored| <= 1
            && (out.stored != [] ==> Truthy(Prop(m, "dishName")) && env.connects)
            && (out.stored == [] ==> out.response.body["result"] == Obj(m))
            && (out.stored != [] ==>
                  var r := out.stored[0];
                  && r.sourceType == PhotoRecipe && r.sourceIngredients == Str(PhotoScan)
                  && r.userId == userId && r.imageUrl == imageUrl && r.recipe.Obj?
                  && (forall k :: k in m && k !in {"createdAt", "userId", "sourceIngredients", "userPreferences"} ==>
                        k in r.recipe.fields && r.recipe.fields[k] == m[k])
                  && r.recipe.fields["userId"] == userId
                  && r.recipe.fields["userPreferences"].Obj?
                  && var p := r.recipe.fields["userPreferences"].fields;
                  && p.Keys == {"difficulty", "timeRange", "servings"} && p["timeRange"] == Str("")
                  && p["difficulty"] == (if Truthy(Prop(m, "difficulty")) then m["difficulty"] else Str(Easy))
                  && p["servings"] == (if Truthy(Prop(m, "servings")) then m["servings"] else Str(DefaultServings))
                  && env.save(r, 0).SavedAs?
                  && out.response.body["result"] == Obj(m["id" := Str(env.save(r, 0).id)]))
  {
  }

  /**
   * In ingredients mode a failed connection leaves the reply unchanged with
   * nothing stored, even for an empty batch. Once connected, `savedIds` appears
   * exactly when every suggestion was stored; the ids are then the ones the
   * writes returned, one per suggestion in order, and the records are those of
   * the suggestions.
   */
  lemma SavedIdsMatchRecords(m: map<string, JsValue>, userId: JsValue, imageUrl: Option<string>, env: PhotoEnv)
    requires Prop(m, "suggestedRecipes").Arr?
    ensures !env.connects ==> StoreSuggestions(m, userId, imageUrl, env) == Outcome(Ok(Obj(m)), [])
    ensures var out := StoreSuggestions(m, userId, imageUrl, env);
            var items := Prop(m, "suggestedRecipes").items;
            var b := Batch(Prop(m, "detectedIngredients"), userId, imageUrl, env.now, env.save);
            && out.response.status == 200 && |out.stored| <= |items|
            && (!env.connects || |out.stored| < |items| ==> out.response.body["result"] == Obj(m))
            && (env.connects && |out.stored| == |items| ==>
                  && out.response.body["result"].Obj? && "savedIds" in out.response.body["result"].fields
                  && var ids := out.response.body["result"].fields["savedIds"];
                  && ids.Arr? && |ids.items| == |items|
                  && forall i :: 0 <= i < |items| ==>
                       && SuggestionRecord(items[i], b) == Success(out.stored[i])
                       && ids.items[i].Str? && env.save(out.stored[i], i) == SavedAs(ids.items[i].s))
  {
    var items := Prop(m, "suggestedRecipes").items;
    var b := Batch(Prop(m, "detectedIngredients"), userId, imageUrl, env.now, env.save);
    var s := SaveAfter(items, |items|, b);
    if env.connects {
      if s.complete {
        CompleteRunSavedEverything(items, |items|, b);
      } else {
        IncompleteRunStoppedAtFailure(items, |items|, b);
      }
    }
  }

  /** An empty batch gains `savedIds: []` exactly when the connection succeeds. */
  lemma EmptyBatchSavedIds(userId: JsValue, imageUrl: Option<string>, env: PhotoEnv)
    ensures var out := StoreSuggestions(map["suggestedRecipes" := Arr([])], userId, imageUrl, env);
            && out.stored == [] && out.response.body["result"].Obj?
            && ("savedIds" in out.response.body["result"].fields <==> env.connects)
            && (env.connects ==> out.response.body["result"].fields["savedIds"] == Arr([]))
  {
    var m := map["suggestedRecipes" := Arr([])];
    var b := Batch(Prop(m, "detectedIngredients"), userId, imageUrl, env.now, env.save);
    assert SaveAfter([], 0, b).complete;
  }
}
