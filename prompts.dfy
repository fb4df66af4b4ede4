/**
 * The parts of a prompt that depend on the user's profile and are shared by
 * the recipe and shopping-list handlers: which dietary clause is added and the
 * allergy list. The surrounding prose is not modelled; only which clause is
 * chosen and the values spliced into it.
 */
module Prompts {
  import opened Wrappers
  import opened Strings
  import opened JsValues

  /** The keys of `dietaryMap`, each described by a fixed sentence. */
  const DietKeys: set<string> := {"vegetarian", "vegan", "keto", "paleo", "halal", "kosher", "diet", "gym"}

  /**
   * The properties every object literal inherits from `Object.prototype`: indexing
   * `dietaryMap` with one of these finds a built-in method (or, for `__proto__`,
   * the prototype itself), which is truthy and so replaces the preference.
   */
  const InheritedKeys: set<string> := {"constructor", "hasOwnProperty", "isPrototypeOf", "propertyIsEnumerable",
                                       "toString", "toLocaleString", "valueOf", "__proto__",
                                       "__defineGetter__", "__defineSetter__", "__lookupGetter__", "__lookupSetter__"}

  /** Which dietary clause the prompt gets. */
  datatype DietaryClause =
    | NoDiet                    // no clause
    | CustomDiet(text: JsValue) // the user's own description
    | KnownDiet(key: string)    // the fixed description of a `dietaryMap` key
    | InheritedDiet(key: string) // the inherited `Object.prototype` member under that key, printed as it is
    | OtherDiet(value: JsValue) // the preference itself, printed as it is

  /**
   * The `if (dietaryPreferences && dietaryPreferences !== 'default')` block: a
   * custom preference with a description uses the description; otherwise the
   * map is indexed with the preference converted to a property key.
   */
  function Dietary(pref: JsValue, custom: JsValue): (r: DietaryClause)
    ensures r == NoDiet <==> !Truthy(pref) || pref == Str("default")
    ensures r.CustomDiet? <==> pref == Str("custom") && Truthy(custom)
    ensures r.CustomDiet? ==> r.text == custom
    ensures r.KnownDiet? ==> r.key == ToString(pref) && r.key in DietKeys
    ensures r.InheritedDiet? ==> r.key == ToString(pref) && r.key in InheritedKeys
    ensures r.OtherDiet? ==> r.value == pref && ToString(pref) !in DietKeys && ToString(pref) !in InheritedKeys
  {
    if !Truthy(pref) || pref == Str("default") then NoDiet
    else if pref == Str("custom") && Truthy(custom) then CustomDiet(custom)
    else if ToString(pref) in DietKeys then KnownDiet(ToString(pref))
    else if ToString(pref) in InheritedKeys then InheritedDiet(ToString(pref))
    else OtherDiet(pref)
  }

  /** A preference without a description of its own is printed as it is unless the map knows it. */
  lemma CustomWithoutDescription(custom: JsValue)
    requires !Truthy(custom)
    ensures Dietary(Str("custom"), custom) == OtherDiet(Str("custom"))
  {
    assert ToString(Str("custom")) == "custom";
  }

  /** A preference naming an inherited member does not reach the prompt as written. */
  lemma InheritedKeyReplacesPreference(custom: JsValue)
    ensures Dietary(Str("toString"), custom) == InheritedDiet("toString")
  {
    assert ToString(Str("toString")) == "toString";
  }

  /**
   * The `if (allergies && allergies.length > 0)` block: a non-empty array is
   * joined with ', '; a non-empty string has a length but no `join`, so the
   * call throws. Other values have no positive numeric `length` and add nothing.
   */
  function AllergyList(a: JsValue): (r: Result<Option<string>, TypeError>)
    ensures r.Success? && r.value.Some? <==> a.Arr? && |a.items| > 0
    ensures r.Success? && r.value.Some? ==> r.value.value == JoinValues(a.items, ", ")
    ensures r.Failure? <==> (a.Str? && a.s != "") || (a.Obj? && PositiveLength(a.fields))
  {
    match a
    case Arr(xs) => if |xs| > 0 then Success(Some(JoinValues(xs, ", "))) else Success(None)
    case Str(s) => if s != "" then Failure(TypeError) else Success(None)
    case Obj(m) => if PositiveLength(m) then Failure(TypeError) else Success(None)
    case _ => Success(None)
  }

  /** `o.length > 0` for a plain object: its `length` converted to a number is positive. */
  predicate PositiveLength(m: map<string, JsValue>) {
    ToNumber(Prop(m, "length")).Some? && ToNumber(Prop(m, "length")).value > 0
  }
}
