/**
 * `POST /api/shopping-list`: generate a shopping list from the user's recipe
 * history.
 *
 * The option normalisation and the ingredient extraction are modelled as the
 * source writes them; the extraction fills an insertion-ordered set in two
 * nested loops (`CollectIngredients`), specified by `ExtractIngredients`. The
 * handler is a function of the request body and of everything it gets from
 * outside (`ShoppingEnv`).
 */
module ShoppingHandler {
  import opened Wrappers
  import opened Strings
  import opened JsValues
  import opened Seqs
  import opened Http
  import opened Gemini
  import opened Generation
  import opened Normalizer
  import opened Prompts

  // ---------------------------------------------------------------- options

  /** `parseInt(days) || 7`. */
  function DaysCount(days: JsValue): (r: int)
    ensures r == ParseIntOr(days, 7)
    ensures ParseIntValue(days).None? || ParseIntValue(days) == Some(0) ==> r == 7
    ensures ParseIntValue(days).Some? && ParseIntValue(days) != Some(0) ==> r == ParseIntValue(days).value
  {
    ParseIntOr(days, 7)
  }

  /** The range check on the day count. */
  predicate DaysInRange(d: int) {
    1 <= d <= 7
  }

  /** `parseInt(undefined)` is NaN. */
  lemma ParseIntOfUndefined()
    ensures ParseIntValue(Undefined) == None
  {
    var s := "undefined";
    assert ToString(Undefined) == s;
    assert !IsSpace(s[0]);
    assert TrimStart(s) == s;
    assert s[0] != '-' && s[0] != '+' && s[0] != '0';
    assert DigitValue(s[0]) >= 10;
    assert LeadingDigits(s, 10) == [];
  }

  /**
   * An absent `days` and a zero give seven; a number n below 10^21 in magnitude
   * gives n. From 10^21 on, `String(n)` is in exponent notation and only its
   * leading digit is read, so such a number is accepted when that digit is at
   * most 7, and a negative one never is.
   */
  lemma DaysExamples(n: int)
    ensures DaysCount(Undefined) == 7
    ensures DaysCount(Num(0)) == 7
    ensures -ExponentThreshold < n < ExponentThreshold ==> DaysCount(Num(n)) == if n == 0 then 7 else n
    ensures n >= ExponentThreshold ==> DaysCount(Num(n)) == LeadingDigit(n)
    ensures n <= -ExponentThreshold ==> DaysCount(Num(n)) == -(LeadingDigit(Magnitude(n)) as int)
    ensures DaysInRange(DaysCount(Num(n))) <==> 0 <= n <= 7 || (n >= ExponentThreshold && LeadingDigit(n) <= 7)
  {
    ParseIntOfUndefined();
    ParseIntOfNumber(0);
    DaysOfNumber(n);
  }

  /** The count a number gives, in each of the three ranges. */
  lemma DaysOfNumber(n: int)
    ensures -ExponentThreshold < n < ExponentThreshold ==> DaysCount(Num(n)) == if n == 0 then 7 else n
    ensures n >= ExponentThreshold ==> DaysCount(Num(n)) == LeadingDigit(n)
    ensures n <= -ExponentThreshold ==> DaysCount(Num(n)) == -(LeadingDigit(Magnitude(n)) as int)
  {
    ParseIntOfNumber(n);
  }

  /** `{ "days": 5e21 }` asks for 5 days, since `String(5e21)` is '5e+21'. */
  lemma DaysInExponentNotation()
    ensures DaysCount(Num(5 * ExponentThreshold)) == 5
    ensures DaysInRange(DaysCount(Num(5 * ExponentThreshold)))
  {
    LeadingDigitOfScaled(5, 21);
    ThresholdIsPow10();
    DaysExamples(5 * ExponentThreshold);
  }

  /** `parseInt(servings) || 2`. */
  function ServingsCount(servings: JsValue): (r: int)
    ensures ParseIntValue(servings).None? || ParseIntValue(servings) == Some(0) ==> r == 2
    ensures ParseIntValue(servings).Some? && ParseIntValue(servings) != Some(0) ==> r == ParseIntValue(servings).value
  {
    ParseIntOr(servings, 2)
  }

  /**
   * `hasPriceLimit ? { min, max } : null`: a limit exists only when `priceRange`
   * is truthy and both of its bounds are numbers.
   */
  function PriceLimit(priceRange: JsValue): (r: Option<(int, int)>)
    ensures r.Some? <==> Truthy(priceRange) && OptGet(priceRange, "min").Num? && OptGet(priceRange, "max").Num?
    ensures r.Some? ==> r.value == (OptGet(priceRange, "min").n, OptGet(priceRange, "max").n)
  {
    if Truthy(priceRange) && OptGet(priceRange, "min").Num? && OptGet(priceRange, "max").Num? then
      Some((OptGet(priceRange, "min").n, OptGet(priceRange, "max").n))
    else None
  }

  /** A limit with only one numeric bound, or with a bound given as text, is no limit at all. */
  lemma PriceLimitNeedsBothNumbers(min: JsValue)
    ensures PriceLimit(Obj(map["min" := min])) == None
    ensures PriceLimit(Obj(map["min" := Num(100), "max" := Str("200")])) == None
    ensures PriceLimit(Obj(map["min" := Num(100), "max" := Num(200)])) == Some((100, 200))
  {
  }

  /** The stored `servings`: the raw input when truthy, else the parsed count as a string. */
  function StoredServings(servings: JsValue): (r: JsValue)
    ensures Truthy(servings) ==> r == servings
    ensures !Truthy(servings) ==> r == Str(IntToString(ServingsCount(servings)))
  {
    Or(servings, Str(IntToString(ServingsCount(servings))))
  }

  /** Without a `servings` value the stored value is '2'. */
  lemma StoredServingsDefault()
    ensures StoredServings(Undefined) == Str("2")
  {
    ParseIntOfUndefined();
    assert ServingsCount(Undefined) == 2;
    assert Digit(2) == '2';
    assert IntToString(2) == "2";
  }

  // ------------------------------------------------- ingredient extraction

  /**
   * The concatenation of `f` over `xs`, built from the left; the first element
   * whose `f` fails makes the whole fail.
   */
  function Collect<T>(xs: seq<T>, f: T -> Result<seq<string>, TypeError>): Result<seq<string>, TypeError>
    decreases |xs|
  {
    if xs == [] then Success([])
    else
      match Collect(xs[..|xs| - 1], f)
      case Failure(e) => Failure(e)
      case Success(ns) =>
        match f(xs[|xs| - 1])
        case Failure(e) => Failure(e)
        case Success(ms) => Success(ns + ms)
  }

  /** A failure in a prefix is a failure of the whole. */
  lemma {:induction false} CollectFailurePersists<T>(xs: seq<T>, n: int, f: T -> Result<seq<string>, TypeError>)
    requires 0 <= n <= |xs|
    requires Collect(xs[..n], f).Failure?
    ensures Collect(xs, f).Failure?
    decreases |xs| - n
  {
    if n < |xs| {
      assert xs[..n + 1][..n] == xs[..n];
      CollectFailurePersists(xs, n + 1, f);
    } else {
      assert xs[..n] == xs;
    }
  }

  /** Every name in a successful result satisfies `p`. */
  predicate AllSatisfy(r: Result<seq<string>, TypeError>, p: string -> bool) {
    r.Success? ==> forall n :: n in r.value ==> p(n)
  }

  /** Every name `f` yields satisfies `p`, so every name of the whole does. */
  lemma {:induction false} CollectAll<T>(xs: seq<T>, f: T -> Result<seq<string>, TypeError>, p: string -> bool)
    requires forall x :: x in xs ==> AllSatisfy(f(x), p)
    ensures AllSatisfy(Collect(xs, f), p)
    decreases |xs|
  {
    if xs != [] {
      var init := xs[..|xs| - 1];
      assert forall x :: x in init ==> x in xs;
      assert xs[|xs| - 1] in xs;
      CollectAll(init, f, p);
    }
  }

  /** The name one list item contributes: `ing.name.toLowerCase().trim()` when the name is truthy. */
  function ItemName(item: JsValue): (r: Result<seq<string>, TypeError>)
    ensures r.Success? ==> |r.value| <= 1
    ensures r.Failure? <==> item.Null? || item.Undefined? || (Truthy(OptGet(item, "name")) && !OptGet(item, "name").Str?)
  {
    if item.Null? || item.Undefined? then Failure(TypeError)
    else
      var name := OptGet(item, "name");
      if !Truthy(name) then Success([])
      else if name.Str? then Success([LowerTrim(name.s)])
      else Failure(TypeError)
  }

  /** Vietnamese capitals are lower-cased too: the name 'Ớt' is normalised to 'ớt'. */
  lemma CapitalisedNameLowered()
    ensures LowerTrim("\U{1EDA}t") == "\U{1EDB}t"
  {
    assert ToLower("\U{1EDA}t") == "\U{1EDB}t";
    TrimOfSolidEnds("\U{1EDB}t");
  }

  /** A name already in lower case is kept, so 'ớt' and 'Ớt' are one ingredient. */
  lemma LowerNameKept()
    ensures LowerTrim("\U{1EDB}t") == "\U{1EDB}t"
  {
    assert ToLower("\U{1EDB}t") == "\U{1EDB}t";
    TrimOfSolidEnds("\U{1EDB}t");
  }

  /** 'Đ' has its own lower case: 'Đậu' is normalised to 'đậu'. */
  lemma CapitalDLowered()
    ensures LowerTrim("\U{0110}\U{1EAD}u") == "\U{0111}\U{1EAD}u"
  {
    assert ToLower("\U{0110}\U{1EAD}u") == "\U{0111}\U{1EAD}u";
    TrimOfSolidEnds("\U{0111}\U{1EAD}u");
  }

  /** The names of one list; a value that is not a truthy array is skipped. */
  function ListNames(list: JsValue): Result<seq<string>, TypeError> {
    if Truthy(list) && list.Arr? then Collect(list.items, ItemName) else Success([])
  }

  /** The names of one history document: its ingredient list, then its optional ingredients. */
  function DocNames(doc: JsValue): Result<seq<string>, TypeError> {
    if doc.Null? || doc.Undefined? then Failure(TypeError)
    else
      var rec := OptGet(doc, "recipe");
      match ListNames(OptGet(rec, "ingredientsList"))
      case Failure(e) => Failure(e)
      case Success(a) =>
        match ListNames(OptGet(rec, "optionalIngredients"))
        case Failure(e) => Failure(e)
        case Success(b) => Success(a + b)
  }

  /** `Array.from(allIngredients)`: the distinct names, in order of first appearance. */
  function ExtractIngredients(docs: seq<JsValue>): Result<seq<string>, TypeError> {
    match Collect(docs, DocNames)
    case Failure(_) => Failure(TypeError)
    case Success(ns) => Success(Dedup(ns))
  }

  predicate Normalised(n: string) {
    LowerTrim(n) == n
  }

  lemma ItemNamesNormalised(item: JsValue)
    ensures AllSatisfy(ItemName(item), Normalised)
  {
    if ItemName(item).Success? && ItemName(item).value != [] {
      LowerTrimIdempotent(OptGet(item, "name").s);
    }
  }

  lemma ListNamesNormalised(list: JsValue)
    ensures AllSatisfy(ListNames(list), Normalised)
  {
    if Truthy(list) && list.Arr? {
      forall item | item in list.items
        ensures AllSatisfy(ItemName(item), Normalised)
      {
        ItemNamesNormalised(item);
      }
      CollectAll(list.items, ItemName, Normalised);
    }
  }

  lemma DocNamesNormalised(doc: JsValue)
    ensures AllSatisfy(DocNames(doc), Normalised)
  {
    if !(doc.Null? || doc.Undefined?) {
      var rec := OptGet(doc, "recipe");
      ListNamesNormalised(OptGet(rec, "ingredientsList"));
      ListNamesNormalised(OptGet(rec, "optionalIngredients"));
    }
  }

  /**
   * The extracted names are lower-cased, trimmed and pairwise distinct, and a
   * name is extracted exactly when some listed item yields it.
   */
  lemma ExtractedNamesNormalised(docs: seq<JsValue>)
    ensures ExtractIngredients(docs).Success? ==>
              && NoDuplicates(ExtractIngredients(docs).value)
              && (forall n :: n in ExtractIngredients(docs).value ==> Normalised(n))
              && (forall n :: n in ExtractIngredients(docs).value <==> n in Collect(docs, DocNames).value)
  {
    forall doc | doc in docs
      ensures AllSatisfy(DocNames(doc), Normalised)
    {
      DocNamesNormalised(doc);
    }
    CollectAll(docs, DocNames, Normalised);
  }

  /** `new Set()` with `add` and `Array.from`: the elements in order of first insertion. */
  class OrderedSet {
    var items: seq<string>

    constructor()
      ensures items == []
    {
      items := [];
    }

    /** `add`: a new element goes at the end; an element already present changes nothing. */
    method Add(x: string)
      modifies this
      ensures items == if x in old(items) then old(items) else old(items) + [x]
    {
      if x !in items {
        items := items + [x];
      }
    }
  }

  /** The inner `forEach` over one list, adding each truthy name; false where it throws. */
  method AddNames(names: OrderedSet, list: JsValue, ghost acc: seq<string>) returns (ok: bool)
    requires names.items == Dedup(acc)
    modifies names
    ensures ok <==> ListNames(list).Success?
    ensures ok ==> names.items == Dedup(acc + ListNames(list).value)
  {
    if !(Truthy(list) && list.Arr?) {
      assert acc + [] == acc;
      return true;
    }
    var items := list.items;
    var j := 0;
    ghost var ns: seq<string> := [];
    while j < |items|
      invariant 0 <= j <= |items|
      invariant Collect(items[..j], ItemName) == Success(ns)
      invariant names.items == Dedup(acc + ns)
    {
      var item := items[j];
      assert items[..j + 1][..j] == items[..j];
      if item.Null? || item.Undefined? {
        CollectFailurePersists(items, j + 1, ItemName);
        return false;
      }
      var name := OptGet(item, "name");
      if Truthy(name) {
        if !name.Str? {
          CollectFailurePersists(items, j + 1, ItemName);
          return false;
        }
        var n := LowerTrim(name.s);
        names.Add(n);
        DedupStep(acc, ns, n);
        ns := ns + [n];
      } else {
        assert ns + [] == ns;
      }
      j := j + 1;
    }
    assert items[..j] == items;
    ok := true;
  }

  /** One more name extends the de-duplicated list as `Set.prototype.add` does. */
  lemma DedupStep(acc: seq<string>, ns: seq<string>, n: string)
    ensures Dedup(acc + (ns + [n])) == if n in Dedup(acc + ns) then Dedup(acc + ns) else Dedup(acc + ns) + [n]
  {
    assert acc + (ns + [n]) == (acc + ns) + [n];
    DedupSnoc(acc + ns, n);
  }

  /** A document whose names cannot be read makes the whole extraction throw. */
  lemma DocFailureStops(docs: seq<JsValue>, i: int)
    requires 0 <= i < |docs|
    requires Collect(docs[..i], DocNames).Success?
    requires DocNames(docs[i]).Failure?
    ensures ExtractIngredients(docs) == Failure(TypeError)
  {
    assert docs[..i + 1][..i] == docs[..i];
    assert Collect(docs[..i + 1], DocNames).Failure?;
    CollectFailurePersists(docs, i + 1, DocNames);
  }

  /** One more document extends the collected names by its own. */
  lemma DocStep(docs: seq<JsValue>, i: int, acc: seq<string>)
    requires 0 <= i < |docs|
    requires Collect(docs[..i], DocNames) == Success(acc)
    requires DocNames(docs[i]).Success?
    ensures Collect(docs[..i + 1], DocNames) == Success(acc + DocNames(docs[i]).value)
  {
    assert docs[..i + 1][..i] == docs[..i];
  }

  /** The body of the outer `forEach`: both lists of one history document. */
  method AddDocNames(names: OrderedSet, doc: JsValue, ghost acc: seq<string>) returns (ok: bool)
    requires names.items == Dedup(acc)
    modifies names
    ensures ok <==> DocNames(doc).Success?
    ensures ok ==> names.items == Dedup(acc + DocNames(doc).value)
  {
    if doc.Null? || doc.Undefined? {
      return false;
    }
    var rec := OptGet(doc, "recipe");
    var required := OptGet(rec, "ingredientsList");
    var optional := OptGet(rec, "optionalIngredients");
    ok := AddNames(names, required, acc);
    if !ok {
      assert DocNames(doc).Failure?;
      return;
    }
    ghost var a := ListNames(required).value;
    ok := AddNames(names, optional, acc + a);
    if !ok {
      assert DocNames(doc).Failure?;
      return;
    }
    ghost var b := ListNames(optional).value;
    assert DocNames(doc) == Success(a + b);
    ConcatAssoc(acc, a, b);
  }

  lemma ConcatAssoc(acc: seq<string>, a: seq<string>, b: seq<string>)
    ensures Dedup(acc + a + b) == Dedup(acc + (a + b))
  {
    assert acc + a + b == acc + (a + b);
  }

  /** Lines 68-86 of the handler: the distinct names from the history, or the TypeError a bad item raises. */
  method CollectIngredients(docs: seq<JsValue>) returns (r: Result<seq<string>, TypeError>)
    ensures r == ExtractIngredients(docs)
  {
    var names := new OrderedSet();
    ghost var acc: seq<string> := [];
    var i := 0;
    while i < |docs|
      invariant 0 <= i <= |docs|
      invariant Collect(docs[..i], DocNames) == Success(acc)
      invariant names.items == Dedup(acc)
    {
      var ok := AddDocNames(names, docs[i], acc);
      if !ok {
        DocFailureStops(docs, i);
        return Failure(TypeError);
      }
      DocStep(docs, i, acc);
      acc := acc + DocNames(docs[i]).value;
      i := i + 1;
    }
    assert docs[..i] == docs;
    r := Success(names.items);
  }

  // --------------------------------------------------------------- handler

  /** Everything a rendered prompt depends on. */
  datatype ShoppingPrompt = ShoppingPrompt(days: int, servings: int, ingredients: seq<string>,
                                           price: Option<(int, int)>, dietary: DietaryClause, allergies: Option<string>)

  /** A `ShoppingList.create` document. */
  datatype ShoppingRecord = ShoppingRecord(userId: JsValue, shoppingList: JsValue, days: int,
                                           servings: JsValue, priceRange: Option<(int, int)>)

  /** What the handler gets from outside. */
  datatype ShoppingEnv = ShoppingEnv(
    mongoose: Lookup, native: Lookup,
    profile: Result<map<string, JsValue>, string>,
    history: Result<seq<JsValue>, string>,
    prefs: seq<string>, listing: Listing, fallbackListing: Listing,
    call: Provider, nameOf: string -> string, render: ShoppingPrompt -> string,
    parse: Parser, now: string, save: ShoppingRecord -> Saved)

  datatype Outcome = Outcome(response: Response, stored: Option<ShoppingRecord>)

  const UserIdRequired: string := "userId is required"
  const DaysOutOfRange: string := "days must be between 1 and 7"
  const UnknownUser: string := "Người dùng không tồn tại"
  const UserCheckError: string := "Lỗi xác thực người dùng. Vui lòng thử lại sau."
  const CannotCreate: string := "Không thể tạo danh sách mua sắm"

  /** From the reply text to the response: parse, check the shape, add metadata, store. */
  function Finish(text: string, userId: JsValue, days: int, servings: JsValue, price: Option<(int, int)>,
                  env: ShoppingEnv): (out: Outcome)
    ensures out.stored.Some? ==> out.response.status == 200
  {
    Respond(NormalizeShoppingList(text, env.parse, env.now, days), userId, days, servings, price, env)
  }

  /** The response to a checked reply: the error answers, or the list, stored with the request's options. */
  function Respond(c: Checked, userId: JsValue, days: int, servings: JsValue, price: Option<(int, int)>,
                   env: ShoppingEnv): (out: Outcome)
    ensures out.stored.Some? ==> out.response.status == 200
  {
    match c
    case ParseFailed(raw) =>
      Outcome(Response(500, map["error" := Str("Failed to parse AI response"), "rawResponse" := Str(raw)]), None)
    case ReadFailed => Outcome(InternalError(None), None)
    case Invalid(v) =>
      Outcome(Response(500, map["error" := Str("Invalid shopping list structure from AI"), "shoppingList" := v]), None)
    case Valid(list) =>
      var record := ShoppingRecord(userId, list, days, StoredServings(servings), price);
      match env.save(record)
      case SavedAs(id) => Outcome(Response(200, map["success" := Bool(true), "shoppingList" := list, "id" := Str(id)]), Some(record))
      case SaveFailed => Outcome(Response(200, map["success" := Bool(true), "shoppingList" := list]), None)
  }

  /** The prompt inputs after the history and the profile are read. */
  function PromptFor(days: int, servings: int, ingredients: seq<string>, price: Option<(int, int)>,
                     profile: map<string, JsValue>): Result<ShoppingPrompt, TypeError>
  {
    match AllergyList(Prop(profile, "allergies"))
    case Failure(e) => Failure(e)
    case Success(allergies) =>
      Success(ShoppingPrompt(days, servings, ingredients, price,
                             Dietary(Prop(profile, "dietaryPreferences"), Prop(profile, "customDietary")), allergies))
  }

  /** The whole handler. */
  function HandleShoppingList(body: map<string, JsValue>, env: ShoppingEnv): Outcome {
    var userId := Prop(body, "userId");
    var days := DaysCount(Prop(body, "days"));
    if !Truthy(userId) then Outcome(ErrorResponse(400, UserIdRequired), None)
    else if !DaysInRange(days) then Outcome(ErrorResponse(400, DaysOutOfRange), None)
    else
      var servings := ServingsCount(Prop(body, "servings"));
      var price := PriceLimit(Prop(body, "priceRange"));
      match CheckUser(env.mongoose, env.native)
      case UserMissing => Outcome(ErrorResponse(404, UnknownUser), None)
      case CheckFailed => Outcome(ErrorResponse(500, UserCheckError), None)
      case UserFound =>
        match env.profile
        case Failure(msg) => Outcome(InternalError(Some(msg)), None)
        case Success(profile) =>
          match env.history
          case Failure(msg) => Outcome(InternalError(Some(msg)), None)
          case Success(docs) =>
            match ExtractIngredients(docs)
            case Failure(_) => Outcome(InternalError(None), None)
            case Success(ingredients) =>
              match PromptFor(days, servings, ingredients, price, profile)
              case Failure(_) => Outcome(InternalError(None), None)
              case Success(p) =>
                match GetModel(env.prefs, env.listing, [])
                case Failure(e) => Outcome(InternalError(Some(e.message)), None)
                case Success(model) =>
                  var g := Run(env.prefs, env.fallbackListing, env.call, env.nameOf, SingleName, model, [TextPart(env.render(p))]);
                  match FailureMessage(g, CannotCreate)
                  case Some(message) => Outcome(ErrorResponse(503, message), None)
                  case None => Finish(g.text.value, userId, days, Prop(body, "servings"), price, env)
  }

  /** A missing userId gives 400; then a day count outside 1..7 gives 400; neither depends on anything else. */
  lemma RequestChecks(body: map<string, JsValue>, env: ShoppingEnv)
    ensures !Truthy(Prop(body, "userId")) ==> HandleShoppingList(body, env) == Outcome(ErrorResponse(400, UserIdRequired), None)
    ensures Truthy(Prop(body, "userId")) && !DaysInRange(DaysCount(Prop(body, "days"))) ==>
              HandleShoppingList(body, env) == Outcome(ErrorResponse(400, DaysOutOfRange), None)
  {
  }

  /** Unlike the recipe handler, an error while checking the user stops the request with 500. */
  lemma UserCheckErrorStops(body: map<string, JsValue>, env: ShoppingEnv)
    requires Truthy(Prop(body, "userId")) && DaysInRange(DaysCount(Prop(body, "days")))
    requires CheckUser(env.mongoose, env.native) == CheckFailed
    ensures HandleShoppingList(body, env) == Outcome(ErrorResponse(500, UserCheckError), None)
  {
  }

  /** What a 200 from `Finish` carries and stores. */
  predicate GoodList(out: Outcome, userId: JsValue, days: int, servings: JsValue, price: Option<(int, int)>, now: string) {
    && "shoppingList" in out.response.body && out.response.body["shoppingList"].Obj?
    && var l := out.response.body["shoppingList"].fields;
    && Prop(l, "shoppingList").Arr? && Prop(l, "generatedAt") == Str(now) && Prop(l, "days") == Num(days)
    && (out.stored.Some? ==> out.stored.value == ShoppingRecord(userId, Obj(l), days, StoredServings(servings), price))
  }

  lemma FinishShape(text: string, userId: JsValue, days: int, servings: JsValue, price: Option<(int, int)>, env: ShoppingEnv)
    requires Finish(text, userId, days, servings, price, env).response.status == 200
    ensures GoodList(Finish(text, userId, days, servings, price, env), userId, days, servings, price, env.now)
  {
    ShoppingChecksCleanText(text, env.parse, env.now, days);
    RespondShape(text, env.parse(CleanText(text)), userId, days, servings, price, env);
  }

  lemma RespondShape(text: string, parsed: Option<JsValue>, userId: JsValue, days: int, servings: JsValue,
                     price: Option<(int, int)>, env: ShoppingEnv)
    requires Respond(CheckShoppingList(text, parsed, env.now, days), userId, days, servings, price, env).response.status == 200
    ensures GoodList(Respond(CheckShoppingList(text, parsed, env.now, days), userId, days, servings, price, env),
                     userId, days, servings, price, env.now)
  {
    ShoppingCheckIff(text, parsed, env.now, days);
  }

  /**
   * A 200 carries an object whose `shoppingList` is an array, stamped with the
   * time and the day count; a stored record holds the same list, the count,
   * the stored servings and the price limit.
   */
  lemma SuccessfulListShape(body: map<string, JsValue>, env: ShoppingEnv)
    requires HandleShoppingList(body, env).response.status == 200
    ensures var days := DaysCount(Prop(body, "days"));
      && DaysInRange(days)
      && GoodList(HandleShoppingList(body, env), Prop(body, "userId"), days, Prop(body, "servings"),
                  PriceLimit(Prop(body, "priceRange")), env.now)
  {
    var userId := Prop(body, "userId");
    var days := DaysCount(Prop(body, "days"));
    var price := PriceLimit(Prop(body, "priceRange"));
    var p := PromptFor(days, ServingsCount(Prop(body, "servings")), ExtractIngredients(env.history.value).value,
                       price, env.profile.value).value;
    var model := GetModel(env.prefs, env.listing, []).value;
    var g := Run(env.prefs, env.fallbackListing, env.call, env.nameOf, SingleName, model, [TextPart(env.render(p))]);
    assert HandleShoppingList(body, env) == Finish(g.text.value, userId, days, Prop(body, "servings"), price, env);
    FinishShape(g.text.value, userId, days, Prop(body, "servings"), price, env);
  }
}
