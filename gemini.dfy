/**
 * Model selection: the ordered preference list, the provider's catalog with its
 * `models/` prefix removed, and the choice of the first preferred model that is
 * available and not excluded.
 */
module Gemini {
  import opened Wrappers
  import opened Strings
  import Seqs

  /** An error as the handlers see it: an optional HTTP-like status and a message. */
  datatype CallError = CallError(status: Option<int>, message: string)

  /** The fixed ids that follow the optional `GEMINI_MODEL` override. */
  const DefaultModels: seq<string> :=
    ["gemini-2.5-flash", "gemini-2.0-flash", "gemini-1.5-flash-8b", "gemini-1.5-flash", "gemini-1.5-pro"]

  /** `.filter(Boolean)` over optional strings: unset and empty entries are dropped. */
  function DropFalsy(xs: seq<Option<string>>): (r: seq<string>)
    ensures forall i :: 0 <= i < |r| ==> r[i] != ""
    ensures forall s :: s in r <==> Some(s) in xs && s != ""
  {
    if xs == [] then []
    else
      var rest := DropFalsy(xs[1..]);
      assert xs == [xs[0]] + xs[1..];
      match xs[0]
      case Some(s) => if s != "" then [s] + rest else rest
      case None => rest
  }

  /** `PREFERRED_MODELS`, given the value of the `GEMINI_MODEL` environment variable. */
  function PreferredModels(env: Option<string>): seq<string> {
    DropFalsy([env] + seq(|DefaultModels|, i requires 0 <= i < |DefaultModels| => Some(DefaultModels[i])))
  }

  lemma DropFalsyOfSomes(xs: seq<string>)
    requires forall i :: 0 <= i < |xs| ==> xs[i] != ""
    ensures DropFalsy(seq(|xs|, i requires 0 <= i < |xs| => Some(xs[i]))) == xs
  {
    if xs != [] {
      var ys := seq(|xs|, i requires 0 <= i < |xs| => Some(xs[i]));
      assert ys[1..] == seq(|xs[1..]|, i requires 0 <= i < |xs[1..]| => Some(xs[1..][i]));
      DropFalsyOfSomes(xs[1..]);
    }
  }

  /** The override comes first when it is set and non-empty; the five fixed ids follow in order. */
  lemma PreferredModelsOrder(env: Option<string>)
    ensures env.Some? && env.value != "" ==> PreferredModels(env) == [env.value] + DefaultModels
    ensures env.None? || env.value == "" ==> PreferredModels(env) == DefaultModels
  {
    var ys := seq(|DefaultModels|, i requires 0 <= i < |DefaultModels| => Some(DefaultModels[i]));
    DropFalsyOfSomes(DefaultModels);
    assert ([env] + ys)[1..] == ys;
  }

  /** `n.replace(/^models\//, '')`. */
  function StripModelsPrefix(n: string): (r: string)
    ensures StartsWith(n, "models/") ==> n == "models/" + r
    ensures !StartsWith(n, "models/") ==> r == n
  {
    if StartsWith(n, "models/") then n[7..] else n
  }

  /** Only one leading prefix is removed: a doubled prefix keeps its second copy. */
  lemma StripModelsPrefixOnce(id: string)
    ensures StripModelsPrefix("models/" + id) == id
    ensures StripModelsPrefix("models/models/" + id) == "models/" + id
  {
    assert ("models/" + id)[7..] == id;
    assert ("models/models/" + id)[7..] == "models/" + id;
  }

  /** The `names` Set of `getModel`. */
  function CatalogNames(available: seq<string>): set<string> {
    set n | n in available :: StripModelsPrefix(n)
  }

  predicate Qualifies(m: string, names: set<string>, exclude: seq<string>) {
    m in names && m !in exclude
  }

  /** `PREFERRED_MODELS.find(m => names.has(m) && !exclude.includes(m))`. */
  function SelectModel(prefs: seq<string>, names: set<string>, exclude: seq<string>): (r: Option<string>)
    ensures r.Some? ==> r.value in prefs && r.value in names && r.value !in exclude
    ensures r.Some? ==> exists i :: 0 <= i < |prefs| && prefs[i] == r.value
                                    && forall j :: 0 <= j < i ==> !Qualifies(prefs[j], names, exclude)
    ensures r.None? <==> forall i :: 0 <= i < |prefs| ==> !Qualifies(prefs[i], names, exclude)
  {
    if prefs == [] then None
    else if Qualifies(prefs[0], names, exclude) then Some(prefs[0])
    else
      var r := SelectModel(prefs[1..], names, exclude);
      assert forall i :: 1 <= i < |prefs| ==> prefs[i] == prefs[1..][i - 1];
      if r.Some? then
        var i :| 0 <= i < |prefs[1..]| && prefs[1..][i] == r.value
                 && forall j :: 0 <= j < i ==> !Qualifies(prefs[1..][j], names, exclude);
        assert prefs[i + 1] == r.value;
        r
      else r
  }

  /**
   * The result of the provider's listing request: a response with its status and
   * the `models` names of its body, or the error `fetch` or `res.json()` threw.
   */
  datatype Listing =
    | Listing(ok: bool, status: int, models: Option<seq<string>>)
    | ListingThrew(message: string)

  /** A response with an OK status. */
  predicate Listed(l: Listing) {
    l.Listing? && l.ok
  }

  /** The model names of an OK response; nothing otherwise. */
  function Catalog(l: Listing): seq<string> {
    if Listed(l) then l.models.GetOr([]) else []
  }

  /** `listAvailableModels`: a thrown request error propagates, a non-OK status throws, a body without `models` is an empty catalog. */
  function ListAvailableModels(l: Listing): (r: Result<seq<string>, CallError>)
    ensures l.ListingThrew? ==> r == Failure(CallError(None, l.message))
    ensures l.Listing? && !l.ok ==> r == Failure(CallError(None, "ListModels failed " + IntToString(l.status)))
    ensures Listed(l) ==> r == Success(l.models.GetOr([]))
  {
    match l
    case ListingThrew(message) => Failure(CallError(None, message))
    case Listing(ok, status, models) =>
      if !ok then Failure(CallError(None, "ListModels failed " + IntToString(status)))
      else Success(models.GetOr([]))
  }

  /** The names of the catalog in the insertion order of the `names` Set. */
  function CatalogOrder(available: seq<string>): seq<string> {
    Seqs.Dedup(seq(|available|, i requires 0 <= i < |available| => StripModelsPrefix(available[i])))
  }

  /** `getModel(exclude)`: the id of the model it hands back, or the error it throws. */
  function GetModel(prefs: seq<string>, l: Listing, exclude: seq<string>): Result<string, CallError> {
    match ListAvailableModels(l)
    case Failure(e) => Failure(e)
    case Success(available) =>
      match SelectModel(prefs, CatalogNames(available), exclude)
      case Some(m) => Success(m)
      case None => Failure(CallError(None, "No preferred model available. Found: " + Join(CatalogOrder(available), ", ")))
  }

  /** What `getModel` returns is preferred, listed, not excluded, and the first such entry. */
  lemma GetModelPicksFirstQualifying(prefs: seq<string>, l: Listing, exclude: seq<string>)
    ensures GetModel(prefs, l, exclude).Success? <==>
              Listed(l) && exists i :: 0 <= i < |prefs| && Qualifies(prefs[i], CatalogNames(Catalog(l)), exclude)
    ensures GetModel(prefs, l, exclude).Success? ==>
              var m := GetModel(prefs, l, exclude).value;
              && m in prefs && m !in exclude && m in CatalogNames(Catalog(l))
              && exists i :: 0 <= i < |prefs| && prefs[i] == m
                   && forall j :: 0 <= j < i ==> !Qualifies(prefs[j], CatalogNames(Catalog(l)), exclude)
  {
  }

  /** A catalog model outside the preference list is never chosen; an empty catalog always fails. */
  lemma GetModelFailsWithoutCatalog(prefs: seq<string>, l: Listing, exclude: seq<string>)
    requires Catalog(l) == []
    ensures GetModel(prefs, l, exclude).Failure?
    ensures GetModel(prefs, l, exclude).error.status.None?
  {
    if Listed(l) {
      assert CatalogNames([]) == {};
    }
  }

  /** The catalog's order does not affect which model is chosen. */
  lemma GetModelIgnoresCatalogOrder(prefs: seq<string>, a: seq<string>, b: seq<string>, exclude: seq<string>)
    requires forall n :: n in a <==> n in b
    ensures GetModel(prefs, Listing(true, 200, Some(a)), exclude).Success?
            == GetModel(prefs, Listing(true, 200, Some(b)), exclude).Success?
    ensures GetModel(prefs, Listing(true, 200, Some(a)), exclude).Success? ==>
              GetModel(prefs, Listing(true, 200, Some(a)), exclude).value
              == GetModel(prefs, Listing(true, 200, Some(b)), exclude).value
  {
    assert CatalogNames(a) == CatalogNames(b);
  }

  /** With catalog {m1, m2} and preferences [m0, m1, m2], nothing excluded, the choice is m1. */
  lemma SelectModelExample()
    ensures SelectModel(["m0", "m1", "m2"], {"m1", "m2"}, []) == Some("m1")
  {
  }
}
