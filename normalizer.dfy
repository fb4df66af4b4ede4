/**
 * Turning a model reply into a structured value: trim, strip markdown fences
 * when the text starts with one, parse, then check the shape the handler needs
 * and fill its defaults. `JSON.parse` is a parameter: a partial function from
 * text to a value.
 */
module Normalizer {
  import opened Wrappers
  import opened Strings
  import opened JsValues

  /** `JSON.parse`, None where it throws. */
  type Parser = string -> Option<JsValue>

  /** The text handed to `JSON.parse`. */
  function CleanText(raw: string): string {
    var t := Trim(raw);
    if StartsWith(t, "```json") then StripMarker(StripMarker(t, "```json"), "```")
    else if StartsWith(t, "```") then StripMarker(t, "```")
    else t
  }

  /** Text that does not start with a fence after trimming is parsed exactly as trimmed. */
  lemma UnfencedTextIsOnlyTrimmed(raw: string)
    requires !StartsWith(Trim(raw), "```")
    ensures CleanText(raw) == Trim(raw)
  {
  }

  lemma TrimKeepsNonSpaceEnds(s: string)
    requires s != [] && !IsSpace(s[0]) && !IsSpace(s[|s| - 1])
    ensures Trim(s) == s
  {
  }

  /** A body wrapped as ```` ```json ````, newline, body, newline, ```` ``` ```` comes out as the body and its newline. */
  lemma {:induction false} CleanJsonFence(body: string)
    requires '`' !in body
    ensures CleanText("```json\n" + body + "\n```") == body + "\n"
  {
    var s := "```json\n" + body + "\n```";
    TrimKeepsNonSpaceEnds(s);
    assert StartsWith(s, "```json");
    OpeningFenceStripped(body);
    ClosingFenceStripped(body);
  }

  lemma OpeningFenceStripped(body: string)
    requires '`' !in body
    ensures StripMarker("```json\n" + body + "\n```", "```json") == body + "\n```"
  {
    var s := "```json\n" + body + "\n```";
    assert s[7..] == "\n" + body + "\n```";
    assert s[7..][1..] == body + "\n```";
    StripMarkerPrefix(body, "\n```", "```json");
    assert StripMarker("\n```", "```json") == "\n```" by {
      assert StripMarker("```", "```json") == "```" by {
        StripMarkerWithoutMarker("", "```json");
        assert "```"[1..] == "``" && "``"[1..] == "`" && "`"[1..] == "";
      }
      assert "\n```"[1..] == "```";
    }
  }

  lemma ClosingFenceStripped(body: string)
    requires '`' !in body
    ensures StripMarker(body + "\n```", "```") == body + "\n"
  {
    StripMarkerPrefix(body, "\n```", "```");
    assert StripMarker("\n```", "```") == "\n" by {
      assert "\n```"[1..] == "```";
      assert "```"[3..] == "";
    }
  }

  /** The outcome of normalising one reply. */
  datatype Checked =
    | ParseFailed(raw: string)   // 500 with the raw reply
    | ReadFailed                 // a property read on `null` threw; the outer handler answers 500
    | Invalid(value: JsValue)    // 500 with the parsed value
    | Valid(value: JsValue)

  const BasicEquipment: string := "Chảo/nồi, dao, thớt (dụng cụ cơ bản)"
  const Easy: string := "Dễ"

  const DefaultedKeys: set<string> := {"optionalIngredients", "equipment", "difficulty"}

  /** The three `if (!recipe.x) recipe.x = …` steps. */
  function WithRecipeDefaults(m: map<string, JsValue>): (r: map<string, JsValue>)
    ensures r.Keys == m.Keys + DefaultedKeys
    ensures forall k :: k in m && (k !in DefaultedKeys || Truthy(m[k])) ==> r[k] == m[k]
    ensures !Truthy(Prop(m, "optionalIngredients")) ==> r["optionalIngredients"] == Arr([])
    ensures !Truthy(Prop(m, "equipment")) ==> r["equipment"] == Str(BasicEquipment)
    ensures !Truthy(Prop(m, "difficulty")) ==> r["difficulty"] == Str(Easy)
  {
    var a := if Truthy(Prop(m, "optionalIngredients")) then m else m["optionalIngredients" := Arr([])];
    var b := if Truthy(Prop(a, "equipment")) then a else a["equipment" := Str(BasicEquipment)];
    if Truthy(Prop(b, "difficulty")) then b else b["difficulty" := Str(Easy)]
  }

  /** Filling the defaults a second time changes nothing. */
  lemma RecipeDefaultsIdempotent(m: map<string, JsValue>)
    ensures WithRecipeDefaults(WithRecipeDefaults(m)) == WithRecipeDefaults(m)
  {
    var r := WithRecipeDefaults(m);
    assert forall k :: k in DefaultedKeys ==> Truthy(r[k]);
  }

  /** The recipe handler's parse, required-field check and defaults. */
  function NormalizeRecipe(raw: string, parse: Parser): (r: Checked)
    ensures parse(CleanText(raw)).None? <==> r == ParseFailed(raw)
    ensures r.Valid? ==> r.value.Obj? && parse(CleanText(raw)).Some?
                         && parse(CleanText(raw)).value.Obj?
                         && r.value.fields == WithRecipeDefaults(parse(CleanText(raw)).value.fields)
  {
    CheckRecipe(raw, parse(CleanText(raw)))
  }

  /** The recipe checks applied to the parser's outcome on the cleaned text. */
  function CheckRecipe(raw: string, parsed: Option<JsValue>): (r: Checked)
    ensures parsed.None? <==> r == ParseFailed(raw)
    ensures r.Valid? ==> r.value.Obj? && parsed.Some? && parsed.value.Obj?
                         && r.value.fields == WithRecipeDefaults(parsed.value.fields)
  {
    match parsed
    case None => ParseFailed(raw)
    case Some(v) =>
      if v.Null? || v.Undefined? then ReadFailed
      else if !Truthy(OptGet(v, "title")) || !Truthy(OptGet(v, "ingredientsList")) || !Truthy(OptGet(v, "steps")) then Invalid(v)
      else Valid(Obj(WithRecipeDefaults(v.fields)))
  }

  /** The recipe path runs the checks on what the parser makes of the cleaned text. */
  lemma RecipeChecksCleanText(raw: string, parse: Parser)
    ensures NormalizeRecipe(raw, parse) == CheckRecipe(raw, parse(CleanText(raw)))
  {
  }

  /** A parsed value passes the recipe checks exactly when it is an object with a truthy title, ingredient list and steps. */
  lemma RecipeCheckIff(raw: string, parsed: Option<JsValue>)
    ensures CheckRecipe(raw, parsed).Valid? <==>
              parsed.Some? && parsed.value.Obj?
              && var m := parsed.value.fields;
                 Truthy(Prop(m, "title")) && Truthy(Prop(m, "ingredientsList")) && Truthy(Prop(m, "steps"))
    ensures CheckRecipe(raw, parsed).Valid? ==>
              var m := parsed.value.fields;
              var r := CheckRecipe(raw, parsed).value.fields;
              && r["title"] == m["title"] && r["ingredientsList"] == m["ingredientsList"] && r["steps"] == m["steps"]
              && Truthy(r["optionalIngredients"]) && Truthy(r["equipment"]) && Truthy(r["difficulty"])
  {
    if parsed.Some? && parsed.value.Obj? {
      var m := parsed.value.fields;
      assert OptGet(parsed.value, "title") == Prop(m, "title");
      assert OptGet(parsed.value, "ingredientsList") == Prop(m, "ingredientsList");
      assert OptGet(parsed.value, "steps") == Prop(m, "steps");
      if CheckRecipe(raw, parsed).Valid? {
        assert "title" !in DefaultedKeys && "ingredientsList" !in DefaultedKeys && "steps" !in DefaultedKeys;
        assert "title" in m && "ingredientsList" in m && "steps" in m;
      }
    } else {
      assert !CheckRecipe(raw, parsed).Valid?;
    }
  }

  /** A recipe is accepted exactly when it is an object with a truthy title, ingredient list and steps. */
  lemma RecipeAcceptedIff(raw: string, parse: Parser)
    ensures NormalizeRecipe(raw, parse).Valid? <==>
              parse(CleanText(raw)).Some? && parse(CleanText(raw)).value.Obj?
              && var m := parse(CleanText(raw)).value.fields;
                 Truthy(Prop(m, "title")) && Truthy(Prop(m, "ingredientsList")) && Truthy(Prop(m, "steps"))
    ensures NormalizeRecipe(raw, parse).Valid? ==>
              var m := parse(CleanText(raw)).value.fields;
              var r := NormalizeRecipe(raw, parse).value.fields;
              && r["title"] == m["title"] && r["ingredientsList"] == m["ingredientsList"] && r["steps"] == m["steps"]
              && Truthy(r["optionalIngredients"]) && Truthy(r["equipment"]) && Truthy(r["difficulty"])
  {
    RecipeChecksCleanText(raw, parse);
    RecipeCheckIff(raw, parse(CleanText(raw)));
  }

  /** `normalize("not json")` fails to parse and carries the original text. */
  lemma NotJsonKeepsRawText(parse: Parser)
    requires parse("not json").None?
    ensures NormalizeRecipe("not json", parse) == ParseFailed("not json")
  {
    CleanTextOfNotJson();
  }

  lemma CleanTextOfNotJson()
    ensures CleanText("not json") == "not json"
  {
    var s := "not json";
    assert Trim(s) == s by {
      assert !IsSpace(s[0]) && !IsSpace(s[|s| - 1]);
    }
    assert !StartsWith(s, "```");
  }

  /** A reply object without a title is rejected, whatever else it holds. */
  lemma MissingTitleIsInvalid(raw: string, parse: Parser)
    requires parse(CleanText(raw)).Some? && parse(CleanText(raw)).value.Obj?
    requires "title" !in parse(CleanText(raw)).value.fields
    ensures NormalizeRecipe(raw, parse).Invalid?
  {
    RecipeChecksCleanText(raw, parse);
    UntitledIsInvalid(raw, parse(CleanText(raw)));
  }

  lemma UntitledIsInvalid(raw: string, parsed: Option<JsValue>)
    requires parsed.Some? && parsed.value.Obj? && "title" !in parsed.value.fields
    ensures CheckRecipe(raw, parsed).Invalid?
  {
    assert !Truthy(OptGet(parsed.value, "title"));
  }

  /**
   * A fenced reply with title "A" and empty lists is accepted; the optional
   * ingredients, equipment and difficulty get their defaults.
   */
  lemma FencedRecipeGetsDefaults(body: string, parse: Parser)
    requires '`' !in body
    requires parse(body + "\n") == Some(Obj(map["title" := Str("A"), "ingredientsList" := Arr([]), "steps" := Arr([])]))
    ensures var r := NormalizeRecipe("```json\n" + body + "\n```", parse);
      && r.Valid? && r.value.fields["title"] == Str("A")
      && r.value.fields["optionalIngredients"] == Arr([])
      && r.value.fields["equipment"] == Str(BasicEquipment)
      && r.value.fields["difficulty"] == Str(Easy)
  {
    CleanJsonFence(body);
  }

  /** The shopping-list handler's parse, shape check and metadata. */
  function NormalizeShoppingList(raw: string, parse: Parser, generatedAt: string, days: int): (r: Checked)
    ensures parse(CleanText(raw)).None? <==> r == ParseFailed(raw)
    ensures r.Valid? ==> r.value.Obj? && Prop(r.value.fields, "shoppingList").Arr?
                         && Prop(r.value.fields, "generatedAt") == Str(generatedAt) && Prop(r.value.fields, "days") == Num(days)
  {
    CheckShoppingList(raw, parse(CleanText(raw)), generatedAt, days)
  }

  /** The shape check and metadata applied to the parser's outcome on the cleaned text. */
  function CheckShoppingList(raw: string, parsed: Option<JsValue>, generatedAt: string, days: int): (r: Checked)
    ensures parsed.None? <==> r == ParseFailed(raw)
    ensures r.Valid? ==> r.value.Obj? && Prop(r.value.fields, "shoppingList").Arr?
                         && Prop(r.value.fields, "generatedAt") == Str(generatedAt) && Prop(r.value.fields, "days") == Num(days)
  {
    match parsed
    case None => ParseFailed(raw)
    case Some(v) =>
      if v.Null? || v.Undefined? then ReadFailed
      else
        var list := OptGet(v, "shoppingList");
        if !Truthy(list) || !list.Arr? then Invalid(v)
        else Valid(Obj(v.fields["generatedAt" := Str(generatedAt)]["days" := Num(days)]))
  }

  /** The shopping-list path runs the shape check on what the parser makes of the cleaned text. */
  lemma ShoppingChecksCleanText(raw: string, parse: Parser, generatedAt: string, days: int)
    ensures NormalizeShoppingList(raw, parse, generatedAt, days) == CheckShoppingList(raw, parse(CleanText(raw)), generatedAt, days)
  {
  }

  /** A parsed value passes the shape check exactly when its `shoppingList` is an array; it then gains `generatedAt` and `days`. */
  lemma ShoppingCheckIff(raw: string, parsed: Option<JsValue>, generatedAt: string, days: int)
    ensures CheckShoppingList(raw, parsed, generatedAt, days).Valid? <==>
              parsed.Some? && parsed.value.Obj? && Prop(parsed.value.fields, "shoppingList").Arr?
    ensures CheckShoppingList(raw, parsed, generatedAt, days).Valid? ==>
              var m := parsed.value.fields;
              var r := CheckShoppingList(raw, parsed, generatedAt, days).value.fields;
              && r.Keys == m.Keys + {"generatedAt", "days"}
              && r["generatedAt"] == Str(generatedAt) && r["days"] == Num(days)
              && forall k :: k in m && k != "generatedAt" && k != "days" ==> r[k] == m[k]
  {
  }

  /** A shopping list is accepted exactly when `shoppingList` is an array; it then gains `generatedAt` and `days`. */
  lemma ShoppingListAcceptedIff(raw: string, parse: Parser, generatedAt: string, days: int)
    ensures NormalizeShoppingList(raw, parse, generatedAt, days).Valid? <==>
              parse(CleanText(raw)).Some? && parse(CleanText(raw)).value.Obj?
              && Prop(parse(CleanText(raw)).value.fields, "shoppingList").Arr?
    ensures NormalizeShoppingList(raw, parse, generatedAt, days).Valid? ==>
              var m := parse(CleanText(raw)).value.fields;
              var r := NormalizeShoppingList(raw, parse, generatedAt, days).value.fields;
              && r.Keys == m.Keys + {"generatedAt", "days"}
              && r["generatedAt"] == Str(generatedAt) && r["days"] == Num(days)
              && forall k :: k in m && k != "generatedAt" && k != "days" ==> r[k] == m[k]
  {
    ShoppingChecksCleanText(raw, parse, generatedAt, days);
    ShoppingCheckIff(raw, parse(CleanText(raw)), generatedAt, days);
  }

  /** The photo handler's parse: any value that parses is accepted as it is. */
  function ParsePhotoReply(raw: string, parse: Parser): (r: Checked)
    ensures r.Valid? || r == ParseFailed(raw)
    ensures r.Valid? <==> parse(CleanText(raw)).Some?
    ensures r.Valid? ==> r.value == parse(CleanText(raw)).value
  {
    match parse(CleanText(raw))
    case None => ParseFailed(raw)
    case Some(v) => Valid(v)
  }
}
