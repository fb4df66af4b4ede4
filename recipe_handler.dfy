/**
 * `POST /api/recipes`: generate a recipe from the user's ingredients.
 *
 * The handler is a function of the request body and of everything it gets
 * from outside (`RecipeEnv`): the two user stores' answers, the profile, the
 * model catalog, the provider, the prompt renderer, `JSON.parse`, the clock
 * and the history store. Its retry loop is `Generation.Run`, implemented by
 * the method `Generation.Generate`.
 */
module RecipeHandler {
  import opened Wrappers
  import opened Strings
  import opened JsValues
  import opened Http
  import opened Gemini
  import opened Generation
  import opened Normalizer
  import opened Prompts

  /** The requirement sentence chosen for the time range; the sentences themselves are prose. */
  datatype TimeRequirement = FiveToTenMinutes | TwentyToThirtyMinutes | OverAnHour | NoTimeRequirement

  /** The requirement sentence chosen for the difficulty. */
  datatype DifficultyRequirement = EasySteps | MediumSteps | HardSteps | NoDifficultyRequirement

  const TimeRanges: set<JsValue> := {Str("5~10 Phút"), Str("20~30 Phút"), Str("Hơn 1 Tiếng")}
  const Difficulties: set<JsValue> := {Str("Dễ"), Str("Trung Bình"), Str("Khó")}

  /** The `if … else if` chain over the selected time range; anything else leaves the requirement empty. */
  function TimeRequirementOf(range: JsValue): (r: TimeRequirement)
    ensures r == NoTimeRequirement <==> range !in TimeRanges
    ensures r == FiveToTenMinutes <==> range == Str("5~10 Phút")
    ensures r == TwentyToThirtyMinutes <==> range == Str("20~30 Phút")
    ensures r == OverAnHour <==> range == Str("Hơn 1 Tiếng")
  {
    if range == Str("5~10 Phút") then FiveToTenMinutes
    else if range == Str("20~30 Phút") then TwentyToThirtyMinutes
    else if range == Str("Hơn 1 Tiếng") then OverAnHour
    else NoTimeRequirement
  }

  /** The chain over the selected difficulty; anything else leaves the requirement empty. */
  function DifficultyRequirementOf(level: JsValue): (r: DifficultyRequirement)
    ensures r == NoDifficultyRequirement <==> level !in Difficulties
    ensures r == EasySteps <==> level == Str("Dễ")
    ensures r == MediumSteps <==> level == Str("Trung Bình")
    ensures r == HardSteps <==> level == Str("Khó")
  {
    if level == Str("Dễ") then EasySteps
    else if level == Str("Trung Bình") then MediumSteps
    else if level == Str("Khó") then HardSteps
    else NoDifficultyRequirement
  }

  const ManyPeople: string := "số người lớn (tùy chỉnh theo yêu cầu)"

  /** `servingsText`: the special text for 'Nhiều hơn', otherwise the count followed by ' người'. */
  function ServingsText(servings: JsValue): (r: string)
    ensures servings == Str("Nhiều hơn") ==> r == ManyPeople
    ensures servings != Str("Nhiều hơn") ==> r == ToString(servings) + " người"
  {
    if servings == Str("Nhiều hơn") then ManyPeople else ToString(servings) + " người"
  }

  /** The options after their defaults. */
  datatype Options = Options(difficulty: JsValue, timeRange: JsValue, servings: JsValue)

  function SelectedOptions(body: map<string, JsValue>): (o: Options)
    ensures Truthy(o.difficulty) && Truthy(o.timeRange) && Truthy(o.servings)
    ensures !Truthy(Prop(body, "difficulty")) ==> o.difficulty == Str("Dễ")
    ensures !Truthy(Prop(body, "timeRange")) ==> o.timeRange == Str("20~30 Phút")
    ensures !Truthy(Prop(body, "servings")) ==> o.servings == Str("2")
    ensures Truthy(Prop(body, "difficulty")) ==> o.difficulty == Prop(body, "difficulty")
    ensures Truthy(Prop(body, "timeRange")) ==> o.timeRange == Prop(body, "timeRange")
    ensures Truthy(Prop(body, "servings")) ==> o.servings == Prop(body, "servings")
  {
    Options(Or(Prop(body, "difficulty"), Str("Dễ")),
            Or(Prop(body, "timeRange"), Str("20~30 Phút")),
            Or(Prop(body, "servings"), Str("2")))
  }

  /** With no options given, the requirements are the easy steps, twenty to thirty minutes, for '2 người'. */
  lemma DefaultOptionsRequirements(body: map<string, JsValue>)
    requires !Truthy(Prop(body, "difficulty")) && !Truthy(Prop(body, "timeRange")) && !Truthy(Prop(body, "servings"))
    ensures var o := SelectedOptions(body);
      && DifficultyRequirementOf(o.difficulty) == EasySteps
      && TimeRequirementOf(o.timeRange) == TwentyToThirtyMinutes
      && ServingsText(o.servings) == "2 người"
  {
  }

  /** Everything a rendered prompt depends on. */
  datatype RecipePrompt = RecipePrompt(ingredients: JsValue, options: Options, servingsText: string,
                                       time: TimeRequirement, level: DifficultyRequirement,
                                       dietary: DietaryClause, allergies: Option<string>)

  /** What the handler gets from outside. */
  datatype RecipeEnv = RecipeEnv(
    mongoose: Lookup, native: Lookup,
    profile: Result<map<string, JsValue>, string>,
    prefs: seq<string>, listing: Listing, fallbackListing: Listing,
    call: Provider, nameOf: string -> string, render: RecipePrompt -> string,
    parse: Parser, now: string, save: HistoryRecord -> Saved)

  /** The response and the history record that was stored, if any. */
  datatype Outcome = Outcome(response: Response, stored: Option<HistoryRecord>)

  const MissingFields: string := "Missing required fields: ingredients and userId are required"
  const UnknownUser: string := "Người dùng không tồn tại"
  const CannotCreate: string := "Không thể tạo công thức"

  /** The recipe object after the defaults and the metadata. */
  function WithMetadata(fields: map<string, JsValue>, userId: JsValue, ingredients: JsValue, o: Options, now: string): map<string, JsValue> {
    fields["createdAt" := Str(now)]["userId" := userId]["sourceIngredients" := ingredients]
          ["userPreferences" := Obj(map["difficulty" := o.difficulty, "timeRange" := o.timeRange, "servings" := o.servings])]
  }

  /** From the reply text to the response: parse, validate, add defaults and metadata, store. */
  function Finish(text: string, userId: JsValue, ingredients: JsValue, o: Options, env: RecipeEnv): (out: Outcome)
    ensures out.stored.Some? ==> out.response.status == 200
  {
    Respond(NormalizeRecipe(text, env.parse), userId, ingredients, o, env)
  }

  /** The response to a normalised reply: the error answers, or the recipe with its metadata, stored. */
  function Respond(c: Checked, userId: JsValue, ingredients: JsValue, o: Options, env: RecipeEnv): (out: Outcome)
    requires c.Valid? ==> c.value.Obj?
    ensures out.stored.Some? ==> out.response.status == 200
  {
    match c
    case ParseFailed(raw) =>
      Outcome(Response(500, map["error" := Str("Failed to parse AI response"), "rawResponse" := Str(raw)]), None)
    case ReadFailed => Outcome(InternalError(None), None)
    case Invalid(v) => Outcome(Response(500, map["error" := Str("Invalid recipe structure from AI"), "recipe" := v]), None)
    case Valid(v) =>
      var recipe := Obj(WithMetadata(v.fields, userId, ingredients, o, env.now));
      var record := HistoryRecord(userId, recipe, ingredients, Prompt, None);
      match env.save(record)
      case SavedAs(id) => Outcome(Response(200, map["success" := Bool(true), "recipe" := recipe, "id" := Str(id)]), Some(record))
      case SaveFailed => Outcome(Response(200, map["success" := Bool(true), "recipe" := recipe]), None)
  }

  /** The whole handler. */
  function HandleRecipe(body: map<string, JsValue>, env: RecipeEnv): Outcome {
    var ingredients := Prop(body, "ingredients");
    var userId := Prop(body, "userId");
    if !Truthy(ingredients) || !Truthy(userId) then Outcome(ErrorResponse(400, MissingFields), None)
    else if CheckUser(env.mongoose, env.native) == UserMissing then Outcome(ErrorResponse(404, UnknownUser), None)
    else
      var o := SelectedOptions(body);
      match env.profile
      case Failure(msg) => Outcome(InternalError(Some(msg)), None)
      case Success(profile) =>
        match GetModel(env.prefs, env.listing, [])
        case Failure(e) => Outcome(InternalError(Some(e.message)), None)
        case Success(model) =>
          match AllergyList(Prop(profile, "allergies"))
          case Failure(_) => Outcome(InternalError(None), None)
          case Success(allergies) =>
            var prompt := env.render(RecipePrompt(ingredients, o, ServingsText(o.servings),
                                                  TimeRequirementOf(o.timeRange), DifficultyRequirementOf(o.difficulty),
                                                  Dietary(Prop(profile, "dietaryPreferences"), Prop(profile, "customDietary")),
                                                  allergies));
            var g := Run(env.prefs, env.fallbackListing, env.call, env.nameOf, TriedModels, model, [TextPart(prompt)]);
            match FailureMessage(g, CannotCreate)
            case Some(message) => Outcome(ErrorResponse(503, message), None)
            case None => Finish(g.text.value, userId, ingredients, o, env)
  }

  /** Missing ingredients or userId give 400, whatever the stores, the catalog and the provider would do. */
  lemma MissingFieldsRejected(body: map<string, JsValue>, env: RecipeEnv)
    requires !Truthy(Prop(body, "ingredients")) || !Truthy(Prop(body, "userId"))
    ensures HandleRecipe(body, env) == Outcome(ErrorResponse(400, MissingFields), None)
  {
  }

  /** A user absent from both stores gives 404 and nothing is stored. */
  lemma UnknownUserRejected(body: map<string, JsValue>, env: RecipeEnv)
    requires Truthy(Prop(body, "ingredients")) && Truthy(Prop(body, "userId"))
    requires env.mongoose.NotFound? && env.native.NotFound?
    ensures HandleRecipe(body, env) == Outcome(ErrorResponse(404, UnknownUser), None)
  {
  }

  /** An error while checking the user is ignored: the handler goes on as if the user had been found. */
  lemma UserCheckErrorIgnored(body: map<string, JsValue>, env: RecipeEnv, native: Lookup)
    ensures HandleRecipe(body, env.(mongoose := LookupFailed, native := native))
            == HandleRecipe(body, env.(mongoose := Found(map[]), native := native))
  {
  }

  /**
   * Once the prompt is sent, a run without text answers 503: the overload text
   * when the last error is a 503, otherwise its message or 'Không thể tạo công thức'.
   */
  lemma NoTextIs503(body: map<string, JsValue>, env: RecipeEnv, profile: map<string, JsValue>, model: string, prompt: string)
    requires Truthy(Prop(body, "ingredients")) && Truthy(Prop(body, "userId"))
    requires CheckUser(env.mongoose, env.native) != UserMissing
    requires env.profile == Success(profile)
    requires GetModel(env.prefs, env.listing, []) == Success(model)
    requires AllergyList(Prop(profile, "allergies")).Success?
    requires var o := SelectedOptions(body);
      prompt == env.render(RecipePrompt(Prop(body, "ingredients"), o, ServingsText(o.servings),
                                        TimeRequirementOf(o.timeRange), DifficultyRequirementOf(o.difficulty),
                                        Dietary(Prop(profile, "dietaryPreferences"), Prop(profile, "customDietary")),
                                        AllergyList(Prop(profile, "allergies")).value))
    requires NoText(Run(env.prefs, env.fallbackListing, env.call, env.nameOf, TriedModels, model, [TextPart(prompt)]).text)
    ensures var g := Run(env.prefs, env.fallbackListing, env.call, env.nameOf, TriedModels, model, [TextPart(prompt)]);
      var out := HandleRecipe(body, env);
      && out.response.status == 503 && out.stored.None?
      && out.response.body["error"] == Str(FailureMessage(g, CannotCreate).value)
  {
  }

  /** What a 200 from `Finish` carries. */
  predicate GoodRecipe(out: Outcome, userId: JsValue, ingredients: JsValue, now: string) {
    && "recipe" in out.response.body && out.response.body["recipe"].Obj?
    && var r := out.response.body["recipe"].fields;
    && Truthy(Prop(r, "title")) && Truthy(Prop(r, "ingredientsList")) && Truthy(Prop(r, "steps"))
    && Truthy(Prop(r, "optionalIngredients")) && Truthy(Prop(r, "equipment")) && Truthy(Prop(r, "difficulty"))
    && Prop(r, "userId") == userId && Prop(r, "sourceIngredients") == ingredients && Prop(r, "createdAt") == Str(now)
  }

  lemma FinishShape(text: string, userId: JsValue, ingredients: JsValue, o: Options, env: RecipeEnv)
    requires Finish(text, userId, ingredients, o, env).response.status == 200
    ensures GoodRecipe(Finish(text, userId, ingredients, o, env), userId, ingredients, env.now)
  {
    RecipeChecksCleanText(text, env.parse);
    RespondShape(text, env.parse(CleanText(text)), userId, ingredients, o, env);
  }

  lemma RespondShape(text: string, parsed: Option<JsValue>, userId: JsValue, ingredients: JsValue, o: Options, env: RecipeEnv)
    requires Respond(CheckRecipe(text, parsed), userId, ingredients, o, env).response.status == 200
    ensures GoodRecipe(Respond(CheckRecipe(text, parsed), userId, ingredients, o, env), userId, ingredients, env.now)
  {
    RecipeCheckIff(text, parsed);
    var c := CheckRecipe(text, parsed);
    if c.Valid? {
      MetadataKeeps(c.value.fields, userId, ingredients, o, env.now);
    }
  }

  /** The metadata keys are set and the recipe's own fields are kept. */
  lemma MetadataKeeps(fields: map<string, JsValue>, userId: JsValue, ingredients: JsValue, o: Options, now: string)
    ensures var r := WithMetadata(fields, userId, ingredients, o, now);
            && Prop(r, "title") == Prop(fields, "title") && Prop(r, "ingredientsList") == Prop(fields, "ingredientsList")
            && Prop(r, "steps") == Prop(fields, "steps") && Prop(r, "optionalIngredients") == Prop(fields, "optionalIngredients")
            && Prop(r, "equipment") == Prop(fields, "equipment") && Prop(r, "difficulty") == Prop(fields, "difficulty")
            && Prop(r, "userId") == userId && Prop(r, "sourceIngredients") == ingredients && Prop(r, "createdAt") == Str(now)
  {
  }

  /**
   * A 200 carries a recipe whose title, ingredient list and steps are truthy,
   * whose optional ingredients, equipment and difficulty are truthy, and whose
   * metadata names the user, the ingredients and the time of creation.
   */
  lemma SuccessfulRecipeShape(body: map<string, JsValue>, env: RecipeEnv)
    requires HandleRecipe(body, env).response.status == 200
    ensures GoodRecipe(HandleRecipe(body, env), Prop(body, "userId"), Prop(body, "ingredients"), env.now)
  {
    var ingredients := Prop(body, "ingredients");
    var userId := Prop(body, "userId");
    var o := SelectedOptions(body);
    var profile := env.profile.value;
    var model := GetModel(env.prefs, env.listing, []).value;
    var allergies := AllergyList(Prop(profile, "allergies")).value;
    var prompt := env.render(RecipePrompt(ingredients, o, ServingsText(o.servings),
                                          TimeRequirementOf(o.timeRange), DifficultyRequirementOf(o.difficulty),
                                          Dietary(Prop(profile, "dietaryPreferences"), Prop(profile, "customDietary")),
                                          allergies));
    var g := Run(env.prefs, env.fallbackListing, env.call, env.nameOf, TriedModels, model, [TextPart(prompt)]);
    assert HandleRecipe(body, env) == Finish(g.text.value, userId, ingredients, o, env);
    FinishShape(g.text.value, userId, ingredients, o, env);
  }

  /** Every response is one of 200, 400, 404, 500 and 503, and a record is stored only with a 200. */
  lemma ResponseStatuses(body: map<string, JsValue>, env: RecipeEnv)
    ensures HandleRecipe(body, env).response.status in {200, 400, 404, 500, 503}
    ensures HandleRecipe(body, env).stored.Some? ==> HandleRecipe(body, env).response.status == 200
  {
  }
}
