# AnGiHomNay backend — a verified model of its core

AnGiHomNay is an Express backend for a cooking app. Its HTTP handlers ask a
Gemini model for a recipe from a list of ingredients, a shopping list from the
user's cooking history, or a recipe (or recipe suggestions) from a photo, and
keep the results as history in MongoDB. Around those handlers sit e-mail and
password accounts with a reset-token flow, a JWT middleware, profile
endpoints and an image-hosting helper.

This project models that core in Dafny and proves what it promises:

- **Model selection** (`Gemini`): the preference list (optional `GEMINI_MODEL`
  first, then five fixed ids, falsy entries dropped), the `models/` prefix
  strip on catalog names, and the choice of the first preferred model that is
  in the catalog and not excluded.
- **Retry and fallback** (`Generation`): the loop shared by the three AI
  handlers. Up to three calls on the primary model, a wait of 500, 1000 or
  2000 ms only after a 503, and one call on a fallback model chosen with the
  failed one excluded. The loop is a method proved equal to a specification
  function; the bounds and the "503 only" rule are lemmas about that function.
  The 503 message of a failed generation is modelled too.
- **Reply normaliser** (`Normalizer`): trimming, markdown-fence stripping, the
  parse with the raw text kept on failure, the recipe and shopping-list shape
  checks and the recipe defaults.
- **Handlers** (`RecipeHandler`, `ShoppingHandler`, `PhotoHandler`): request
  checks, option defaults, the user check over two stores, the ingredient-name
  extraction from history (an insertion-ordered set filled by methods), and the
  history records each handler writes.
- **Accounts** (`Accounts`): register, login, forgot-password and
  reset-password over a users collection held by a class, each method proved
  equal to a specification function. Lemmas cover the validation order, the
  e-mail pattern, unique e-mails and the one-hour, single-use reset token.
- **Middleware** (`Middleware`): the `Authorization: Bearer` token extraction
  (section 2.1 of RFC 6750, with a case-sensitive `Bearer ` prefix),
  verification, and the two-store existence check that sets `req.user`. Also
  the `userId` precedence of `validateUserExists`.
- **Profiles** (`Profiles`): the whitelisted upsert of `PATCH /api/users/:id`,
  the `dateOfBirth` backfill of its GET, and `POST /api/user/profile`, with its
  "no update data" short-circuit and its defined-fields update.
- **Image hosting** (`Cloudinary`): the data URI sent on upload, the error
  rethrown, and the public id and folder recovered from a URL for deletion.

JavaScript semantics that matter are spelled out in `JsValues` and `Strings`:
- truthiness, `||`, and property reads that throw on `null`/`undefined`;
- string conversion and `join`;
- `trim`, `toLowerCase` for the ASCII, Latin-1 and Vietnamese capitals, `split`, `indexOf` and `parseInt`.

The network, the clock, hashing, JWT signing and verification, random tokens
and database writes are parameters (functions or values).

## Model

| member | source | states |
|---|---|---|
| Gemini.DropFalsy | config/gemini.js:7-14 | the list keeps exactly the non-empty given names, and none of its entries is empty |
| Gemini.DropFalsyOfSomes | config/gemini.js:9-14 | a list of non-empty fixed ids passes the falsy filter unchanged and in order |
| Gemini.PreferredModelsOrder | config/gemini.js:7-14 | the preference list is the set, non-empty `GEMINI_MODEL` followed by the five fixed ids in order, or the five ids alone when it is unset or empty |
| Gemini.StripModelsPrefix | config/gemini.js:28 | a leading `models/` is removed and any other name is kept as it is |
| Gemini.StripModelsPrefixOnce | config/gemini.js:28 | only one prefix at the start is stripped: `models/models/x` becomes `models/x` |
| Gemini.SelectModel | config/gemini.js:30 | the pick is a preference in the catalog and not excluded, and no earlier preference qualifies; there is no pick exactly when no preference qualifies |
| Gemini.ListAvailableModels | config/gemini.js:17-24 | an error thrown by `fetch` or `res.json()` propagates with its message; a non-OK listing fails with `ListModels failed <status>`; an OK listing gives its `models`, or an empty catalog without them |
| Gemini.GetModelPicksFirstQualifying | config/gemini.js:26-33 | `getModel` succeeds exactly when some preference is in the stripped catalog and not excluded, and then returns a preference that is in the catalog, not excluded, and preceded by no qualifying preference |
| Gemini.GetModelFailsWithoutCatalog | config/gemini.js:21-23 | a failed listing or an empty catalog makes selection fail, with an error that carries no HTTP status |
| Gemini.GetModelIgnoresCatalogOrder | config/gemini.js:28-30 | two catalogs with the same names give the same selection, whatever their order |
| Gemini.SelectModelExample | config/gemini.js:30 | the first preference absent from the catalog is skipped for the next one present |
| Generation.Exclusion | api/getRecipe.js:206-209 | a non-empty model name is excluded alone, in both the list form of the recipe handler and the single-name form of the other two |
| Generation.Generate | api/getRecipe.js:176-215 | the retry-and-fallback loop, run step by step, ends in the state the specification function `Run` describes |
| Generation.StoppedStaysStopped | api/getRecipe.js:186-201 | once a reply arrives or a non-503 error occurs, later turns of the loop change nothing |
| Generation.Repeat | api/getRecipe.js:186 | the list of primary attempts names the primary model n times |
| Generation.PrimaryShape | api/getRecipe.js:183-201 | after n turns the primary model was called at most n times, the waits are a prefix of 500, 1000, 2000 no longer than the calls, and a loop still running has called and waited n times |
| Generation.AttemptsBounded | api/getRecipe.js:183-215 | a run makes at most three primary calls and one fallback call, the first three on the primary model, with waits a prefix of 500, 1000, 2000 |
| Generation.OverloadsSoFar | api/getRecipe.js:191-196 | after k 503s in a row the loop is still running, with k calls and the first k waits |
| Generation.NonRetryableStops | api/getRecipe.js:191-199 | a non-503 error on call k+1 ends the run there: k+1 calls, k waits, no fallback, and that error is the last one |
| Generation.AllOverloadsFallBack | api/getRecipe.js:204-215 | three 503s give all three waits and then one call on the model selected with the reported name excluded, which is not in that exclusion; if selection fails, its error becomes the last error and there is no text |
| Generation.FallbackOnlyAfterOverloads | api/getRecipe.js:204 | a fourth call happens only after the three primary calls all failed with 503 |
| Generation.StoppedReason | api/getRecipe.js:188-199 | a loop that stopped early never needs the fallback |
| Generation.NotStoppedMeansOverloads | api/getRecipe.js:194-196 | a loop still running after n turns saw a 503 on each of those calls |
| Generation.ExclusionStylesAgree | api/shoppingList.js:194 | excluding `[name]` and excluding the recipe handler's filtered `triedModels` select the same model when no preference is empty |
| Generation.SelectModelRespectsPrefs | config/gemini.js:30 | two exclusion lists that agree on the preferred ids give the same selection |
| Generation.FallbackMayRepeatPrimary | api/shoppingList.js:192-195 | when the SDK reports the name with a `models/` prefix, the fallback can call the same model a fourth time |
| Generation.PrefixedPrimaryIsPickedAgain | api/shoppingList.js:192-195 | when the catalog lists the first preferred id under its `models/` name, excluding that name still selects the id |
| Generation.FailureMessage | api/getRecipe.js:217-222 | no message exactly when there is text; otherwise the overload text exactly when the last error is a 503, else that error's message or the handler's own text |
| Generation.EmptyReplyFails | api/getRecipe.js:188-222 | a first reply of `''` ends the loop after one call with no wait and fails with the handler's own text |
| Http.ErrorResponse | api/getRecipe.js:18-20 | an error answer carries the given status and only the `error` field |
| Http.InternalError | api/getRecipe.js:296-302 | the outer catch answers 500 with `Internal server error` |
| Http.CheckUser | api/getRecipe.js:24-42 | the user is missing exactly when neither store finds it, found when the Mongoose store or, failing that, the native store finds it, and the check fails when a lookup throws before that |
| Http.JwtSecret | middleware/auth.js:27 | the configured, non-empty `JWT_SECRET`, otherwise the built-in default |
| JsValues.Or | api/getRecipe.js:45-47 | `a \|\| b` is `a` when `a` is truthy and `b` otherwise |
| JsValues.Get | api/getRecipe.js:248 | reading a property throws exactly on `null` and `undefined` |
| JsValues.ParseIntOfNumber | api/shoppingList.js:23 | `parseInt` of an integer below 10^21 in magnitude gives that integer; from 10^21 on `String` writes exponent notation and `parseInt` reads only the signed leading digit |
| Strings.ParseIntOfNumberToString | api/shoppingList.js:23 | the same three ranges for the text `String(n)` produces: the integer itself, the leading digit, or minus the leading digit |
| Strings.ParseIntOfExponentForm | api/shoppingList.js:23 | `parseInt` of the exponent form of n >= 10^21 is n's leading digit |
| Strings.LeadingDigitOfScaled | api/shoppingList.js:23 | the leading digit of d * 10^k is d, for a digit d from 1 to 9 |
| JsValues.ToNumberOfNumberString | api/auth/register.js:29 | `Number` reads back the text `String` writes for an integer below 10^21 in magnitude, and a one-element array converts like its element |
| Strings.StringToNumberOfIntToString | api/auth/register.js:29 | `Number` of the decimal text of any integer is that integer |
| Strings.StringToNumberOfNegated | api/auth/register.js:29 | a minus sign followed by decimal digits converts to minus their value |
| Strings.StringToNumberOfWord | api/auth/register.js:29 | unpadded text that starts with neither a sign nor a digit converts to NaN |
| JsValues.ParseIntOr | api/shoppingList.js:23 | `parseInt(v) \|\| d` is the parsed integer unless it is NaN or 0, in which case it is d |
| Seqs.Dedup | api/shoppingList.js:68-86 | the set's contents, in insertion order, hold exactly the names added, without duplicates |
| Seqs.DedupSnoc | api/shoppingList.js:73 | adding a name appends it unless it is already present |
| Seqs.DedupKeepsFirstOrder | api/shoppingList.js:86 | two names appear in the order of their first insertion |
| Seqs.FirstOccurrenceAppended | api/shoppingList.js:73 | the first insertion of a name puts it right after the names inserted before it |
| Seqs.DedupPrefix | api/shoppingList.js:68-86 | the set after a prefix of the insertions is a prefix of the final set |
| Strings.TrimStart | api/getRecipe.js:228 | drops exactly the leading whitespace |
| Strings.TrimEnd | api/getRecipe.js:228 | drops exactly the trailing whitespace |
| Strings.TrimIsMaximalSlice | api/getRecipe.js:228 | `trim()` is a slice of the input with only whitespace cut on either side |
| Strings.TrimEnds | api/getRecipe.js:228 | a trimmed string is empty or starts and ends with non-whitespace |
| Strings.TrimIdempotent | api/shoppingList.js:211 | trimming twice equals trimming once |
| Strings.ToLower | api/shoppingList.js:73 | lower-casing keeps the length |
| Strings.LowerChar | api/shoppingList.js:73 | the ASCII, Latin-1 and Vietnamese capitals (A-Z, À-Þ, Ă, Đ, Ĩ, Ũ, Ơ, Ư and Ạ to Ỹ) become their lower-case letters, and a character that changes is no white space before or after |
| Strings.LowerCharIdempotent | api/shoppingList.js:73 | lower-casing a lower-case letter changes nothing |
| Strings.ToLowerOfSlice | api/shoppingList.js:73 | lower-casing commutes with taking a slice |
| Strings.Utf16Length | api/auth/register.js:29 | `s.length` lies between the number of characters and twice it, and equals it exactly when no character lies beyond the Basic Multilingual Plane |
| Strings.LowerTrimIdempotent | api/auth/register.js:37 | normalising an e-mail twice equals normalising it once |
| Strings.OccursShift | lib/cloudinary.js:46 | an occurrence at m is an occurrence at m-1 in the tail |
| Strings.IndexOf | lib/cloudinary.js:46-47 | the result is the first occurrence, and none means no occurrence at all |
| Strings.Split | lib/cloudinary.js:45 | `split` gives at least one part and no part contains the separator |
| Strings.IndexOfChar | lib/cloudinary.js:47 | a one-character search fails exactly when the character is absent, and otherwise finds its first position |
| Strings.IndexOfCharAppend | lib/cloudinary.js:47 | in `a + c + b`, the first `c` is in `a` if `a` has one, otherwise right after `a` |
| Strings.SplitSnoc | lib/cloudinary.js:45 | splitting `a + c + b`, with no `c` in `b`, gives the parts of `a` followed by `b` |
| Strings.SplitHead | lib/cloudinary.js:45 | the first part of `a + c + b` is `a` when `a` has no `c` |
| Strings.JoinSplit | api/photoRecipe.js:262 | joining the parts of a split with its separator gives back the string |
| Strings.NatToString | api/shoppingList.js:246 | the decimal text of a count is non-empty, all digits, without a leading zero |
| Strings.LeadingDigits | api/shoppingList.js:23 | `parseInt` reads the longest prefix of digits |
| Strings.DigitsValueOfNatToString | api/shoppingList.js:246 | the digits of a number's text have that number as their value |
| Strings.DigitValueOfDigit | api/shoppingList.js:246 | each digit character has its own value |
| Strings.ParseUnsignedOfNatToString | api/shoppingList.js:23 | reading back a number's text gives the number |
| Strings.TrimStartNoLeadingSpace | api/shoppingList.js:23 | a string that starts with non-whitespace is not changed by trimming its start |
| Strings.ParseIntOfIntToString | api/shoppingList.js:23 | `parseInt(String(n))` is n for every integer, negative ones included |
| Strings.ParseIntOfNegative | api/shoppingList.js:23 | a minus sign before a number text negates what the text reads as |
| Strings.ParseIntOfDigits | api/shoppingList.js:23 | a text starting with a digit is read as an unsigned number |
| Strings.LeadingAllDigits | api/shoppingList.js:23 | a string made only of digits is read in full |
| Strings.StripMarker | api/getRecipe.js:232 | removing every fence marker never lengthens the text |
| Strings.StripMarkerWithoutMarker | api/getRecipe.js:232 | text without a backtick is not changed by fence removal |
| Strings.StripMarkerPrefix | api/getRecipe.js:232 | fence removal passes over a backtick-free prefix unchanged |
| Normalizer.UnfencedTextIsOnlyTrimmed | api/getRecipe.js:228-235 | text whose trimmed form does not start with a fence is only trimmed before the parse |
| Normalizer.TrimKeepsNonSpaceEnds | api/getRecipe.js:228 | text without surrounding whitespace survives the trim |
| Normalizer.CleanJsonFence | api/getRecipe.js:231-232 | a `json` fence around a backtick-free body leaves the body and its final newline |
| Normalizer.OpeningFenceStripped | api/getRecipe.js:231 | removing the opening ```` ```json ```` marker and its newline leaves the body and the closing fence |
| Normalizer.ClosingFenceStripped | api/getRecipe.js:232 | removing the closing ```` ``` ```` marker leaves the body and its newline |
| Normalizer.WithRecipeDefaults | api/getRecipe.js:255-268 | falsy `optionalIngredients`, `equipment` and `difficulty` become `[]`, the basic-equipment text and 'Dễ'; every other field and every truthy one is kept |
| Normalizer.RecipeDefaultsIdempotent | api/getRecipe.js:255-268 | filling the defaults twice equals filling them once |
| Normalizer.RecipeChecksCleanText | api/getRecipe.js:226-237 | the recipe path parses the trimmed, fence-stripped text and runs the recipe checks on that parse result |
| Normalizer.NormalizeRecipe | api/getRecipe.js:226-268 | a parse failure, and only that, keeps the raw reply; an accepted recipe is the parsed object with the defaults filled |
| Normalizer.CheckRecipe | api/getRecipe.js:237-268 | on a parse result: no value, and only that, is a parse failure; an accepted recipe is the parsed object with the defaults filled |
| Normalizer.RecipeAcceptedIff | api/getRecipe.js:237-268 | a reply is accepted exactly when it parses to an object with truthy `title`, `ingredientsList` and `steps`, and the accepted recipe then has all six fields truthy |
| Normalizer.RecipeCheckIff | api/getRecipe.js:237-268 | on any parse result, acceptance holds exactly for an object with truthy `title`, `ingredientsList` and `steps`, which are kept, and the defaulted fields are then truthy |
| Normalizer.NotJsonKeepsRawText | api/getRecipe.js:238-244 | an unparsable reply is reported with its raw text |
| Normalizer.CleanTextOfNotJson | api/getRecipe.js:228-235 | plain text reaches the parser unchanged |
| Normalizer.MissingTitleIsInvalid | api/getRecipe.js:248-253 | a recipe without a title is rejected as an invalid structure |
| Normalizer.UntitledIsInvalid | api/getRecipe.js:248-253 | a parsed object without a title is rejected as invalid |
| Normalizer.FencedRecipeGetsDefaults | api/getRecipe.js:231-268 | a fenced minimal recipe is accepted with the three defaults filled in |
| Normalizer.ShoppingChecksCleanText | api/shoppingList.js:209-217 | the shopping-list path parses the trimmed, fence-stripped text and runs the shape check on that parse result |
| Normalizer.NormalizeShoppingList | api/shoppingList.js:209-237 | a parse failure, and only that, keeps the raw reply; an accepted list has an array `shoppingList` |
| Normalizer.CheckShoppingList | api/shoppingList.js:217-237 | on a parse result: no value, and only that, is a parse failure; an accepted list has an array `shoppingList` |
| Normalizer.ShoppingListAcceptedIff | api/shoppingList.js:217-237 | a reply is accepted exactly when it parses to an object whose `shoppingList` is an array; `generatedAt` and `days` are then added to it |
| Normalizer.ShoppingCheckIff | api/shoppingList.js:217-237 | on any parse result, acceptance holds exactly for an object with an array `shoppingList`, which then gets `generatedAt` and `days` |
| Normalizer.ParsePhotoReply | api/photoRecipe.js:202-219 | any reply that parses is accepted as it is, with no shape check; otherwise the raw reply is kept |
| Prompts.Dietary | api/getRecipe.js:105-126 | no dietary clause exactly for a falsy or 'default' preference; the custom text exactly for 'custom' with a truthy description; otherwise the mapped key, an inherited `Object.prototype` member, or the raw value |
| Prompts.InheritedKeyReplacesPreference | api/getRecipe.js:123 | a preference naming an inherited `Object.prototype` member ('toString') is replaced by that member |
| Prompts.CustomWithoutDescription | api/getRecipe.js:119-124 | 'custom' without a description falls through to the raw preference |
| Prompts.AllergyList | api/getRecipe.js:129-131 | a non-empty array is listed joined with ', '; a non-empty string or an object with a positive `length` makes `join` throw; anything else adds nothing |
| RecipeHandler.TimeRequirementOf | api/getRecipe.js:59-66 | each of the three time ranges has its own requirement, exactly when the range is that text, and any other value has none |
| RecipeHandler.DifficultyRequirementOf | api/getRecipe.js:69-76 | each of the three difficulties has its own requirement, exactly when the level is that text, and any other value has none |
| RecipeHandler.ServingsText | api/getRecipe.js:79-81 | 'Nhiều hơn' gives the special text, and any other value gives `<value> người` |
| RecipeHandler.SelectedOptions | api/getRecipe.js:45-47 | each option is the body's value when truthy, else 'Dễ', '20~30 Phút' or '2' |
| RecipeHandler.DefaultOptionsRequirements | api/getRecipe.js:45-81 | with no options the prompt asks for an easy dish in 20-30 minutes for '2 người' |
| RecipeHandler.Finish | api/getRecipe.js:281-294 | a history record is written only with a 200 answer |
| RecipeHandler.MissingFieldsRejected | api/getRecipe.js:17-21 | missing `ingredients` or `userId` gives 400 and nothing else happens |
| RecipeHandler.UnknownUserRejected | api/getRecipe.js:24-38 | a user found in neither store gives 404 |
| RecipeHandler.UserCheckErrorIgnored | api/getRecipe.js:39-42 | an error while checking the user is ignored, as if the user had been found |
| RecipeHandler.NoTextIs503 | api/getRecipe.js:217-222 | a generation without text answers 503 with the failure message and writes nothing |
| RecipeHandler.FinishShape | api/getRecipe.js:248-289 | a 200 carries a recipe with truthy required and defaulted fields and with the user, ingredients and creation time as metadata |
| RecipeHandler.RespondShape | api/getRecipe.js:248-289 | for any parse result, a 200 carries a recipe with truthy required and defaulted fields and the request's metadata |
| RecipeHandler.MetadataKeeps | api/getRecipe.js:270-279 | the metadata sets `createdAt`, `userId` and `sourceIngredients` and keeps the recipe's own six fields |
| RecipeHandler.SuccessfulRecipeShape | api/getRecipe.js:248-289 | every 200 of the handler carries such a recipe |
| RecipeHandler.ResponseStatuses | api/getRecipe.js:17-302 | the handler answers 200, 400, 404, 500 or 503, and writes history only with 200 |
| ShoppingHandler.DaysCount | api/shoppingList.js:23 | days is `parseInt(days)`, or 7 when that is NaN or 0 |
| ShoppingHandler.ParseIntOfUndefined | api/shoppingList.js:23 | `parseInt(undefined)` is NaN |
| ShoppingHandler.DaysExamples | api/shoppingList.js:23-28 | absent and 0 both become 7, and a number n passes the range check exactly when 0 <= n <= 7, or n >= 10^21 with a leading digit of at most 7 (its exponent form reads as that digit) |
| ShoppingHandler.DaysInExponentNotation | api/shoppingList.js:23-28 | `days` of 5 * 10^21 is read as 5 and passes the range check |
| ShoppingHandler.ServingsCount | api/shoppingList.js:30 | 2 exactly when `parseInt(servings)` is NaN or 0; otherwise the parsed integer |
| ShoppingHandler.PriceLimit | api/shoppingList.js:31-33 | a price limit exists exactly when `priceRange` is truthy and both bounds are numbers, and it is those bounds |
| ShoppingHandler.PriceLimitNeedsBothNumbers | api/shoppingList.js:31 | a missing or non-numeric bound means no limit |
| ShoppingHandler.StoredServings | api/shoppingList.js:246 | the stored servings are the raw input when truthy, else the count as text |
| ShoppingHandler.StoredServingsDefault | api/shoppingList.js:246 | no servings are stored as '2' |
| ShoppingHandler.CollectFailurePersists | api/shoppingList.js:69-84 | once a document's extraction throws, the whole extraction throws |
| ShoppingHandler.CollectAll | api/shoppingList.js:69-84 | a property of every document's names holds for all names collected |
| ShoppingHandler.ItemName | api/shoppingList.js:71-75 | an item contributes at most one name; it throws exactly on `null`, `undefined` or a truthy non-string name |
| ShoppingHandler.ItemNamesNormalised | api/shoppingList.js:73 | every name taken is lower-cased and trimmed |
| ShoppingHandler.CapitalisedNameLowered | api/shoppingList.js:73 | the name 'Ớt' is normalised to 'ớt' |
| ShoppingHandler.LowerNameKept | api/shoppingList.js:73 | the name 'ớt' is kept as it is, so it and 'Ớt' are one ingredient |
| ShoppingHandler.CapitalDLowered | api/shoppingList.js:73 | the name 'Đậu' is normalised to 'đậu' |
| ShoppingHandler.ListNamesNormalised | api/shoppingList.js:70-76 | every name taken from a list is lower-cased and trimmed |
| ShoppingHandler.DocNamesNormalised | api/shoppingList.js:69-84 | every name taken from a document is lower-cased and trimmed |
| ShoppingHandler.ExtractedNamesNormalised | api/shoppingList.js:68-86 | every extracted ingredient is lower-cased and trimmed |
| ShoppingHandler.OrderedSet.constructor | api/shoppingList.js:68 | a new set is empty |
| ShoppingHandler.OrderedSet.Add | api/shoppingList.js:73 | adding appends a name not yet present and otherwise changes nothing |
| ShoppingHandler.AddNames | api/shoppingList.js:70-83 | adding a list's names succeeds exactly when their extraction does, and leaves the deduplicated names so far followed by the list's |
| ShoppingHandler.DedupStep | api/shoppingList.js:73-80 | adding one more name appends it to the distinct names unless it is already there |
| ShoppingHandler.DocFailureStops | api/shoppingList.js:69-84 | a document that throws makes the extraction throw |
| ShoppingHandler.DocStep | api/shoppingList.js:69-84 | one more document appends its names |
| ShoppingHandler.AddDocNames | api/shoppingList.js:69-84 | adding a document's names succeeds exactly when their extraction does, and appends them deduplicated |
| ShoppingHandler.CollectIngredients | api/shoppingList.js:68-86 | the loop over the history gives exactly the deduplicated, normalised names of the specification, or the error it throws |
| ShoppingHandler.Finish | api/shoppingList.js:240-262 | a list is stored only with a 200 answer |
| ShoppingHandler.RequestChecks | api/shoppingList.js:17-28 | missing `userId` gives 400, and so does a day count outside 1..7 |
| ShoppingHandler.UserCheckErrorStops | api/shoppingList.js:49-53 | an error while checking the user answers 500 and stores nothing |
| ShoppingHandler.FinishShape | api/shoppingList.js:228-262 | a 200 carries an array `shoppingList` with `generatedAt` and `days`, and a stored list has the days, servings and price range of the request |
| ShoppingHandler.RespondShape | api/shoppingList.js:228-262 | for any parse result, a 200 carries an array `shoppingList` with `generatedAt` and `days`, and a stored list has the request's options |
| ShoppingHandler.SuccessfulListShape | api/shoppingList.js:15-262 | every 200 of the handler carries such a list, with the normalised day count |
| PhotoHandler.ModeOf | api/photoRecipe.js:14-27 | an absent mode or 'recipe' is recipe mode, 'ingredients' is ingredients mode, and anything else is rejected |
| PhotoHandler.Spread | api/photoRecipe.js:226 | spreading an object copies its fields, and any other value adds none |
| PhotoHandler.Preferences | api/photoRecipe.js:264-266 | reading the preferences of `null` throws; otherwise they have exactly difficulty, timeRange '' and servings, where a truthy difficulty or servings is kept and a falsy one becomes 'Dễ' or '1-2 người' |
| PhotoHandler.SourceIngredients | api/photoRecipe.js:262 | absent detected ingredients give '', an array gives its items joined with ', ', and anything else throws |
| PhotoHandler.SuggestionRecord | api/photoRecipe.js:256-275 | a record is built unless the suggestion is `null` or the ingredients cannot be joined; it is an ingredients-photo record of the user |
| PhotoHandler.SuggestionRecordShape | api/photoRecipe.js:257-272 | the record keeps the suggestion's fields plus the five metadata fields, and names the joined ingredients as its source |
| PhotoHandler.LeftLoopStaysLeft | api/photoRecipe.js:256-282 | after the first error the loop writes nothing more |
| PhotoHandler.CompleteRunSavedEverything | api/photoRecipe.js:256-277 | a loop that ran to its end stored one record per suggestion, in order, with the id each write returned |
| PhotoHandler.IncompleteRunStoppedAtFailure | api/photoRecipe.js:256-282 | a loop left early kept the records before the failing suggestion, which could not be built or stored |
| PhotoHandler.SaveSuggestions | api/photoRecipe.js:255-278 | the save loop, run step by step, gives the ids, records and completion of the specification |
| PhotoHandler.TurnFails | api/photoRecipe.js:256-282 | a suggestion that cannot be built or stored ends the loop with the records stored before it |
| PhotoHandler.TurnSaves | api/photoRecipe.js:268-277 | a stored suggestion appends its id and its record |
| PhotoHandler.IdValues | api/photoRecipe.js:276-278 | `savedIds` holds the returned ids in order |
| PhotoHandler.GenerationFailures | api/photoRecipe.js:149-219 | the image goes as the prompt then JPEG inline data; a run without text answers 503 with the failure message, and a reply that does not parse answers 500 with the raw reply, with nothing stored |
| PhotoHandler.RequestChecks | api/photoRecipe.js:17-27 | 400 exactly when the image or `userId` is missing or the mode is unknown, and then nothing is stored |
| PhotoHandler.StoreStatuses | api/photoRecipe.js:221-285 | after a parse the answer is 200, or 500 when the reply is `null`; records are written only for an object reply |
| PhotoHandler.UserCheckErrorStops | api/photoRecipe.js:43-48 | an error while checking the user answers 500 and stores nothing |
| PhotoHandler.StoredRecordsCarryImageUrl | api/photoRecipe.js:51-59 | every record written carries the uploaded URL, or none when the upload failed |
| PhotoHandler.StoreCarriesImageUrl | api/photoRecipe.js:222-278 | in either mode, every record written carries the image URL given to it |
| PhotoHandler.StoredRecordsOfBatch | api/photoRecipe.js:269-275 | every record of the batch is an ingredients-photo record of the user with the batch's image URL |
| PhotoHandler.DishRecord | api/photoRecipe.js:221-248 | a reply without a truthy `dishName`, or with a failed `connectMongoose`, is returned unchanged and stores nothing; a named dish is stored at most once as a photo recipe from 'Photo scan' with the reply's fields and the user, its preferences being exactly difficulty and servings (kept when truthy, else 'Dễ' and '1-2 người') and timeRange ''; the reply gains the id exactly when the write succeeds |
| PhotoHandler.SavedIdsMatchRecords | api/photoRecipe.js:250-283 | a failed `connectMongoose` leaves the reply unchanged with nothing stored; once connected, `savedIds` appears exactly when every suggestion was stored, and then holds the returned ids in order |
| PhotoHandler.EmptyBatchSavedIds | api/photoRecipe.js:250-278 | an empty `suggestedRecipes` array gains `savedIds: []` exactly when the connection succeeds |
| Accounts.IsValidEmail | api/auth/register.js:21-22 | the check holds exactly when the e-mail matches `^[^\s@]+@[^\s@]+\.[^\s@]+$` |
| Accounts.EmailPatternAt | api/auth/register.js:21 | at the first '@', the pattern holds exactly when the local part is non-empty and free of '@' and spaces, and so is the domain, which has a dot with text on both sides |
| Accounts.PartsMakeForm | api/auth/register.js:21 | well-formed parts around the first '@' match the pattern |
| Accounts.FormGivesParts | api/auth/register.js:21 | a match splits into such parts |
| Accounts.PatternNeedsAt | api/auth/register.js:21 | a matching e-mail contains '@' |
| Accounts.FormAtFirstAt | api/auth/register.js:21 | in a match, the '@' is the first one of the e-mail |
| Accounts.PasswordLengthInCodeUnits | api/auth/register.js:29 | the length check counts UTF-16 code units: three emoji pass it, five letters do not |
| Accounts.ConvertedLengthIsShort | api/auth/register.js:29 | an object password whose `length` is `null`, `'3'` or `true` is too short, since `<` converts the length to a number first |
| Accounts.ConvertedLengthIsNotShort | api/auth/register.js:29 | an object password without a `length`, or with `length` `'8'`, is not too short |
| Accounts.NaNLengthIsNotShort | api/auth/register.js:29 | a `length` of non-numeric text converts to NaN and the comparison is false |
| Accounts.ObjectLengthIsNotShort | api/auth/register.js:29 | a plain object as `length` converts to NaN and the comparison is false |
| Accounts.NormalizeEmail | api/auth/register.js:37 | a string e-mail is lower-cased and trimmed, and anything else throws |
| Accounts.StoredName | api/auth/register.js:57 | a name is stored trimmed, or `null` when absent or blank; a non-string throws |
| Accounts.FirstWhere | api/auth/login.js:22 | `findOne` returns the first matching account, and nothing exactly when none matches |
| Accounts.UpdateFirst | api/auth/login.js:47-50 | `updateOne` changes only the first account with the user id, and nothing when there is none |
| Accounts.AccountStore.constructor | api/auth/register.js:36 | the store holds the given accounts |
| Accounts.AccountStore.Insert | api/auth/register.js:65 | an insert appends the account |
| Accounts.AccountStore.Update | api/auth/forgot-password.js:31-39 | an update applies to the first account with the user id |
| Accounts.PublicUser | api/auth/register.js:75-83 | the user in a response has exactly `userId`, `email` and `name`, never the hash |
| Accounts.RegisterOutcome | api/auth/register.js:14-83 | 201 exactly when one account is added: valid e-mail, long enough password, no account with the normalised e-mail; the account has the normalised e-mail, the hash, the trimmed name or `null` when it is blank, a `null` custom diet and the other profile defaults, and the response's `user` is exactly its public id, e-mail and name; any other answer writes nothing |
| Accounts.RegisterKeepsEmailsUnique | api/auth/register.js:36-43 | registration keeps e-mails unique |
| Accounts.Register | api/auth/register.js:9-90 | the register endpoint on the store gives the answer and the collection of its specification |
| Accounts.LoginOutcome | api/auth/login.js:14-63 | 200 exactly when the normalised e-mail names an account with a hash that the password matches; only then is `lastLoginAt` set, and the response's `user` is exactly that account's public id, e-mail and name; every 401 has the same message |
| Accounts.Login | api/auth/login.js:9-70 | the login endpoint on the store gives the answer and the collection of its specification |
| Accounts.ForgotOutcome | api/auth/forgot-password.js:12-57 | the answer does not depend on the accounts; a known e-mail gets a new token expiring one hour later, and an unknown one changes nothing |
| Accounts.ForgotPassword | api/auth/forgot-password.js:8-63 | the forgot-password endpoint on the store gives the answer and the collection of its specification |
| Accounts.ResetOutcome | api/auth/reset-password.js:12-62 | 200 exactly when both fields are present, the password is long enough, the token names an account and has not expired; only then are the new hash set and the token removed |
| Accounts.ResetPassword | api/auth/reset-password.js:8-68 | the reset-password endpoint on the store gives the answer and the collection of its specification |
| Accounts.UpdateHitsOwner | api/auth/reset-password.js:45-46 | with unique user ids, an update by an account's id changes exactly that account |
| Accounts.ResetTokenLifecycle | api/auth/reset-password.js:34-57 | a token issued by forgot-password resets only its owner's password up to one hour later, and is refused as expired after that |
| Accounts.IssueMakesSoleHolder | api/auth/forgot-password.js:22-40 | a fresh token issued for a known email is held by that account only, expiring one hour later, and user ids stay unique |
| Accounts.RedeemSoleToken | api/auth/reset-password.js:25-57 | a token held by one account resets that account's password and is cleared before its expiry, and is refused after it |
| Accounts.ResetTokenSingleUse | api/auth/reset-password.js:45-57 | after a successful reset the same token is refused |
| Middleware.BearerTokenTaken | middleware/auth.js:15-17 | a `Bearer ` header gives the text after the prefix |
| Middleware.OtherSchemesIgnored | middleware/auth.js:16-18 | without that prefix the token is `x-auth-token` when non-empty, else the `token` query parameter |
| Middleware.LowercaseSchemeIgnored | middleware/auth.js:16 | a lower-case `bearer ` header is not used |
| Middleware.FindUser | middleware/auth.js:38-64 | a user is found exactly when either store has it, and the Mongoose store's document wins |
| Middleware.NativeStoreOnlyAsFallback | middleware/auth.js:53 | the native store is not consulted when the Mongoose store finds the user |
| Middleware.MongooseErrorFallsBack | middleware/auth.js:48-64 | when the Mongoose lookup throws, the native store decides |
| Middleware.TokenVerdictIff | middleware/auth.js:15-72 | `next` exactly when a token is present, verifies, and its user exists in a store; `req.user` is then set from the token's claims, and every rejection is 401 |
| Middleware.NoTokenNoVerification | middleware/auth.js:20-24 | without a token the answer is 401 whatever the verifier and the stores would say |
| Middleware.Request.constructor | middleware/auth.js:12 | a request starts with its headers, query, params and body and with no user |
| Middleware.ValidateToken | middleware/auth.js:12-79 | the middleware, run step by step on the request, gives the verdict of its specification and sets `req.user` only on success |
| Middleware.UserIdPrecedence | middleware/auth.js:87 | `userId` is the truthy one of params, then body, then query |
| Middleware.UserVerdictCases | middleware/auth.js:87-130 | 400 exactly when no `userId`, 404 exactly when neither store has it, and otherwise `next` with `req.user` from the first store that has it |
| Middleware.ValidateUserExists | middleware/auth.js:85-137 | the middleware, run step by step on the request, gives the verdict of its specification |
| Profiles.FirstWithUserId | api/users.js:11 | the lookup returns the first document with the user id, and nothing exactly when none has it |
| Profiles.FirstWithUserIdAt | api/users.js:11 | a document with the id and none before it is the one found |
| Profiles.DefinedFields | api/users.js:41-43 | the update holds exactly the whitelisted keys whose body value is not `undefined`, with the body's values |
| Profiles.ApplySet | api/users.js:44-48 | `$set` overwrites the given keys and keeps every other field |
| Profiles.ApplySetIdempotent | api/users.js:44-48 | applying the same `$set` twice equals applying it once |
| Profiles.BuildSet | api/users.js:41-43 | the loop over the allowed keys builds exactly that update |
| Profiles.PatchWritesWhitelist | api/users.js:38-53 | a PATCH writes exactly the defined whitelisted fields and `updatedAt` (the schema's timestamps), keeps the rest, ignores other body fields and creates a missing user with `createdAt` |
| Profiles.PatchIdempotent | api/users.js:38-53 | sending the same PATCH twice at the same instant leaves the collection as sending it once |
| Profiles.GetBackfill | api/users.js:8-36 | 404 exactly when neither store has the user; a user with `dateOfBirth` is returned unchanged without a write, and one without it gains `dateOfBirth` '', which the Mongoose document also gets, with `updatedAt` |
| Profiles.ProfileStore.constructor | api/users.js:11 | the store holds the given documents |
| Profiles.ProfileStore.Patch | api/users.js:38-53 | the PATCH on the store gives the answer and the documents of its specification |
| Profiles.ProfileStore.Get | api/users.js:8-36 | the GET on the store gives the answer and the documents of its specification |
| Profiles.ProfileStore.UpdateProfile | api/userProfile.js:9-49 | the profile POST on the store gives the answer and the documents of its specification |
| Profiles.ProfileOutcome | api/userProfile.js:12-44 | the target is the body's `userId`, else the token's; 400 exactly when neither is present; 404 for an unknown target; a write only with some truthy field, and then exactly the defined fields and `updatedAt`; no user is ever created |
| Profiles.EmptyStringIsWritten | api/userProfile.js:34-42 | a defined but empty field is written |
| Cloudinary.UploadPayload | lib/cloudinary.js:19-20 | the upload sends `data:image/jpeg;base64,` followed by the image |
| Cloudinary.UploadImage | lib/cloudinary.js:16-35 | the upload, into the given folder or 'angi-images', succeeds with the service's URL exactly when the service succeeds, and otherwise fails with the prefixed message |
| Cloudinary.PublicId | lib/cloudinary.js:45 | the public id contains no '/' and no '.' |
| Cloudinary.FolderAfterCloudName | lib/cloudinary.js:46-48 | for `<host>/<cloud name>/<folder>/<rest>` with no earlier `/<cloud name>/` and no '/' in the folder, the folder is that segment |
| Cloudinary.PublicIdOfFileName | lib/cloudinary.js:45 | the public id of `<path>/<name>.<extension>` is the name |
| Cloudinary.Folder | lib/cloudinary.js:46-48 | the folder has no '/', and is 'angi-images' when the URL lacks `/<cloud name>/` |
| Cloudinary.FullPublicIdSegments | lib/cloudinary.js:50 | the id destroyed is the folder and the public id, or the public id alone when the folder is empty |
| Cloudinary.DeletionTarget | lib/cloudinary.js:42-57 | something is destroyed exactly when the URL is a string, and it is the full public id |
| Cloudinary.ForeignUrlUsesDefaultFolder | lib/cloudinary.js:46-50 | a URL outside the configured cloud is deleted from 'angi-images' |

## Left out

- Network, SDK and database: the Gemini SDK, the model listing request, MongoDB and Mongoose are parameters. A provider is a function of the model, the parts and the attempt index. Lookups and writes are given outcomes (found, not found, threw; saved with an id, failed), and whether `connectMongoose()` succeeds before the photo handler's history writes is a parameter.
- Sleeping: the waits are recorded as a sequence and do not delay anything.
- Prompt prose: the long prompt templates are a rendering parameter. The model keeps what selects their content: the time, difficulty, servings, dietary and allergy clauses, the price clause and the ingredient list.
- Clocks: `new Date()` is a single `now` per request, and ISO time strings are opaque text. Reset-token expiry is whole milliseconds, with `setHours(+1)` taken as 3600000 ms, so DST shifts are not modelled.
- Random values: the user-id suffix, the reset token and the upload's `public_id` are parameters.
- Hashing, JWT signing and verification: bcrypt and `jsonwebtoken` are functions passed in; the 7-day expiry lives inside them.
- Numbers: JavaScript numbers are modelled as exact integers, so fractional prices, `NaN` values, `toLocaleString` formatting and the rounding of doubles above 2^53 are not modelled; `String` of an integer of magnitude 10^21 or more is written in exponent notation, as JavaScript does.
- JsValues.ToNumber: text is converted only in its decimal-integer form (with optional sign and surrounding white space); fractional, exponent, hexadecimal, binary, octal and `Infinity` text, which JavaScript converts to a number, is NaN in the model.
- Strings.Utf16Length: a Dafny string cannot hold a lone surrogate, which a JavaScript string decoded from JSON can; such strings are not modelled.
- Strings.ToLower: lower-casing covers the ASCII, Latin-1 and Vietnamese capitals, which the ingredient names and e-mail addresses use; capitals of other scripts (Greek, Cyrillic, the rest of Latin Extended) are kept as they are, so ShoppingHandler.ExtractIngredients would keep two spellings of such a name apart where JavaScript merges them.
- Mongoose behaviour: casting, schema defaults, the `.lean()` `_id`/`__v` fields and validation are not modelled. The schema's timestamps are modelled in Profiles: `updatedAt` and, on insert, `createdAt` take the request's `now`, an opaque value rather than a `Date`. The `sourceType` values of models/Recipe.js are modelled as a datatype.
- Profiles.ProfileSpec: the target `userId` is matched by equality. A body `userId` that is an object or an array is a query operator to MongoDB (`{"$ne": ""}`, an implicit `$in`), so `findOne` and `findOneAndUpdate` can match, and overwrite, another user's profile; the model answers 404 instead, and Profiles.ProfileOutcome and Profiles.FirstWithUserId promise nothing about such bodies.
- Profiles.ProfileOutcome: its 404 for an unknown target holds for string and other scalar `userId` values only; an operator or array `userId` is not modelled, as the Profiles.ProfileSpec line says.
- Accounts: a reset token that is not a string matches no account. MongoDB would treat an object as a query operator.
- Accounts.LoginOutcome: the `lastLoginAt` and `updatedAt` values are the request's `now`, not ISO strings.
- Spread: spreading an array or a string into a record is modelled as adding no fields.
- Prompts.AllergyList: an object's `length` is converted as `JsValues.ToNumber` does, with the limits listed for it.
- PhotoHandler: the inline data sent is the image's string form. The per-iteration `new Date()` in the save loop is the one `now`.
- Outer catch-all 500 answers: the model keeps them only where a modelled step throws (a property read on `null`, a failed model selection). Other crashes cannot happen in the model.
- RecipeHandler.Finish: its own contract states only that history is written with a 200. What the 200 carries is stated by RecipeHandler.FinishShape.
- ShoppingHandler.Finish: its own contract states only that a list is stored with a 200. What the 200 carries is stated by ShoppingHandler.FinishShape.
- Profile defaults: `getUserProfile` of lib/db.js (which fills profile defaults) is not part of this model; its result is a parameter of the handlers.
- Routes outside the core: the GET and DELETE shopping-list routes, api/recipes.js, server.js and the test scripts are not modelled.
- Middleware: the outer 500 of both middlewares is not modelled, because no modelled step throws there.
- Profiles: `api/userProfile.js` uses the `userId` of the body even when a token names another user. It is modelled as written.
