/**
 * The retry-then-fallback loop shared by the recipe, shopping-list and photo
 * handlers: up to three calls on the primary model, a wait after each 503,
 * an immediate stop on any other error, and after a final 503 exactly one call
 * on a model chosen with the failed one excluded.
 *
 * The provider is a function of (model id, request parts, attempt number), so a
 * run is deterministic; the waits are recorded instead of slept.
 */
module Generation {
  import opened Wrappers
  import opened Gemini

  /** One part of a `generateContent` request. */
  datatype Part = TextPart(text: string) | InlineData(mimeType: string, data: string)

  /** What one `tryCall` produced: the reply text, or the error it threw. */
  datatype Reply = Replied(text: string) | Threw(err: CallError)

  /** The provider's reply to the n-th call of a request on a model (0, 1, 2 primary; 3 fallback). */
  type Provider = (string, seq<Part>, nat) -> Reply

  /** `backoffs`: the waits in milliseconds after the first, second and third 503. */
  const Backoffs: seq<nat> := [500, 1000, 2000]

  const OverloadMessage: string := "Mô hình AI đang quá tải, vui lòng thử lại sau."

  /** `e?.status === 503`. */
  predicate IsOverload(e: CallError) {
    e.status == Some(503)
  }

  /**
   * How the failed model's name goes into the exclusion list: the recipe handler
   * pushes it into `triedModels` and drops falsy entries; the shopping-list and
   * photo handlers pass `[name || '']` as it is.
   */
  datatype ExclusionStyle = TriedModels | SingleName

  function Exclusion(style: ExclusionStyle, name: string): (r: seq<string>)
    ensures name != "" ==> r == [name]
  {
    match style
    case TriedModels => if name == "" then [] else [name]
    case SingleName => [name]
  }

  /** The variables of the primary loop: `text`, `lastErr`, the waits so far, the models called, and whether it broke out. */
  datatype LoopState = LoopState(text: Option<string>, lastErr: Option<CallError>, waits: seq<nat>, tried: seq<string>, stopped: bool)

  const Start: LoopState := LoopState(None, None, [], [], false)

  /** One iteration of the primary loop. A broken-out loop stays as it is. */
  function Attempt(s: LoopState, call: Provider, model: string, parts: seq<Part>, i: nat): LoopState
    requires i < |Backoffs|
  {
    if s.stopped then s
    else
      match call(model, parts, i)
      case Replied(t) => s.(text := Some(t), lastErr := None, tried := s.tried + [model], stopped := true)
      case Threw(e) =>
        if IsOverload(e) then s.(lastErr := Some(e), waits := s.waits + [Backoffs[i]], tried := s.tried + [model])
        else s.(lastErr := Some(e), tried := s.tried + [model], stopped := true)
  }

  /** The loop's variables after its first n iterations. */
  function PrimaryAfter(call: Provider, model: string, parts: seq<Part>, n: nat): LoopState
    requires n <= |Backoffs|
  {
    if n == 0 then Start else Attempt(PrimaryAfter(call, model, parts, n - 1), call, model, parts, n - 1)
  }

  /** The result of one generation: the text obtained, the last error, the waits and the models called, in order. */
  datatype Generation = Generation(text: Option<string>, lastErr: Option<CallError>, waits: seq<nat>, tried: seq<string>)

  /** `!text`. */
  predicate NoText(text: Option<string>) {
    text.None? || text.value == ""
  }

  /** Whether the fallback step runs: no text and a last error with status 503. */
  predicate NeedsFallback(s: LoopState) {
    NoText(s.text) && s.lastErr.Some? && IsOverload(s.lastErr.value)
  }

  /** The whole retry-then-fallback sequence, as a function of its inputs. */
  function Run(prefs: seq<string>, fallbackListing: Listing, call: Provider, nameOf: string -> string,
               style: ExclusionStyle, model: string, parts: seq<Part>): Generation
  {
    var p := PrimaryAfter(call, model, parts, |Backoffs|);
    if NeedsFallback(p) then
      match GetModel(prefs, fallbackListing, Exclusion(style, nameOf(model)))
      case Failure(e2) => Generation(p.text, Some(e2), p.waits, p.tried)
      case Success(m2) =>
        match call(m2, parts, |Backoffs|)
        case Replied(t) => Generation(Some(t), p.lastErr, p.waits, p.tried + [m2])
        case Threw(e2) => Generation(p.text, Some(e2), p.waits, p.tried + [m2])
    else Generation(p.text, p.lastErr, p.waits, p.tried)
  }

  /** Once the loop has broken out, later iterations change nothing. */
  lemma {:induction false} StoppedStaysStopped(call: Provider, model: string, parts: seq<Part>, n: nat, m: nat)
    requires n <= m <= |Backoffs|
    requires PrimaryAfter(call, model, parts, n).stopped
    ensures PrimaryAfter(call, model, parts, m) == PrimaryAfter(call, model, parts, n)
    decreases m - n
  {
    if n < m {
      StoppedStaysStopped(call, model, parts, n, m - 1);
    }
  }

  /**
   * Runs the primary loop and the fallback step and reports what happened.
   * `nameOf` gives the name the SDK object reports for a model id (`model.model
   * || model.options?.model`, or '' when neither is set).
   */
  method Generate(prefs: seq<string>, fallbackListing: Listing, call: Provider, nameOf: string -> string,
                  style: ExclusionStyle, model: string, parts: seq<Part>) returns (g: Generation)
    ensures g == Run(prefs, fallbackListing, call, nameOf, style, model, parts)
  {
    var text: Option<string> := None;
    var lastErr: Option<CallError> := None;
    var waits: seq<nat> := [];
    var tried: seq<string> := [];
    var i := 0;
    while i < |Backoffs|
      invariant 0 <= i <= |Backoffs|
      invariant PrimaryAfter(call, model, parts, i) == LoopState(text, lastErr, waits, tried, false)
    {
      var reply := call(model, parts, i);
      tried := tried + [model];
      if reply.Replied? {
        text := Some(reply.text);
        lastErr := None;
        StoppedStaysStopped(call, model, parts, i + 1, |Backoffs|);
        break;
      }
      lastErr := Some(reply.err);
      if IsOverload(reply.err) {
        waits := waits + [Backoffs[i]];
        i := i + 1;
        continue;
      }
      StoppedStaysStopped(call, model, parts, i + 1, |Backoffs|);
      break;
    }
    ghost var p := PrimaryAfter(call, model, parts, |Backoffs|);
    assert p.text == text && p.lastErr == lastErr && p.waits == waits && p.tried == tried;
    if NoText(text) && lastErr.Some? && IsOverload(lastErr.value) {
      var next := GetModel(prefs, fallbackListing, Exclusion(style, nameOf(model)));
      if next.Failure? {
        lastErr := Some(next.error);
      } else {
        var reply := call(next.value, parts, |Backoffs|);
        tried := tried + [next.value];
        if reply.Replied? {
          text := Some(reply.text);
        } else {
          lastErr := Some(reply.err);
        }
      }
    }
    g := Generation(text, lastErr, waits, tried);
  }

  function Repeat(model: string, n: nat): (r: seq<string>)
    ensures |r| == n && forall i :: 0 <= i < n ==> r[i] == model
  {
    seq(n, _ => model)
  }

  /** The loop only ever calls the primary model, waits at most once per call, and its waits follow the schedule. */
  lemma {:induction false} PrimaryShape(call: Provider, model: string, parts: seq<Part>, n: nat)
    requires n <= |Backoffs|
    ensures var s := PrimaryAfter(call, model, parts, n);
      && |s.tried| <= n && s.tried == Repeat(model, |s.tried|)
      && |s.waits| <= |s.tried|
      && s.waits == Backoffs[..|s.waits|]
      && (!s.stopped ==> |s.tried| == n && |s.waits| == n)
  {
    if n > 0 {
      PrimaryShape(call, model, parts, n - 1);
    }
  }

  /** At most three calls on the primary model and one on a fallback; the waits are a prefix of 500, 1000, 2000. */
  lemma AttemptsBounded(prefs: seq<string>, l: Listing, call: Provider, nameOf: string -> string,
                        style: ExclusionStyle, model: string, parts: seq<Part>)
    ensures var g := Run(prefs, l, call, nameOf, style, model, parts);
      && |g.tried| <= |Backoffs| + 1
      && (forall i :: 0 <= i < |g.tried| && i < |Backoffs| ==> g.tried[i] == model)
      && |g.waits| <= |Backoffs| && g.waits == Backoffs[..|g.waits|]
  {
    PrimaryShape(call, model, parts, |Backoffs|);
    if PrimaryAfter(call, model, parts, |Backoffs|).stopped {
      StoppedReason(call, model, parts, |Backoffs|);
    }
  }

  /** When the first k calls were 503s, the loop has called k times and waited the first k waits. */
  lemma {:induction false} OverloadsSoFar(call: Provider, model: string, parts: seq<Part>, k: nat)
    requires k <= |Backoffs|
    requires forall j :: 0 <= j < k ==> call(model, parts, j).Threw? && IsOverload(call(model, parts, j).err)
    ensures var s := PrimaryAfter(call, model, parts, k);
      && !s.stopped && s.text.None? && s.tried == Repeat(model, k) && s.waits == Backoffs[..k]
      && (k > 0 ==> s.lastErr == Some(call(model, parts, k - 1).err))
  {
    if k > 0 {
      OverloadsSoFar(call, model, parts, k - 1);
    }
  }

  /**
   * An error other than 503, after k overloads, ends everything: k + 1 calls on the
   * primary model, k waits, no fallback, and that error is the last one.
   */
  lemma NonRetryableStops(prefs: seq<string>, l: Listing, call: Provider, nameOf: string -> string,
                          style: ExclusionStyle, model: string, parts: seq<Part>, k: nat)
    requires k < |Backoffs|
    requires forall j :: 0 <= j < k ==> call(model, parts, j).Threw? && IsOverload(call(model, parts, j).err)
    requires call(model, parts, k).Threw? && !IsOverload(call(model, parts, k).err)
    ensures var g := Run(prefs, l, call, nameOf, style, model, parts);
      && g.text.None? && g.lastErr == Some(call(model, parts, k).err)
      && g.tried == Repeat(model, k + 1) && g.waits == Backoffs[..k]
  {
    OverloadsSoFar(call, model, parts, k);
    StoppedStaysStopped(call, model, parts, k + 1, |Backoffs|);
    assert Repeat(model, k) + [model] == Repeat(model, k + 1);
  }

  /**
   * Three 503s in a row: all three waits, in order, and then exactly one call on the
   * model `getModel` picks with the failed model's name excluded; if that selection
   * throws, its error becomes the last one.
   */
  lemma AllOverloadsFallBack(prefs: seq<string>, l: Listing, call: Provider, nameOf: string -> string,
                             style: ExclusionStyle, model: string, parts: seq<Part>)
    requires forall j :: 0 <= j < |Backoffs| ==> call(model, parts, j).Threw? && IsOverload(call(model, parts, j).err)
    ensures var g := Run(prefs, l, call, nameOf, style, model, parts);
      var next := GetModel(prefs, l, Exclusion(style, nameOf(model)));
      && g.waits == [500, 1000, 2000]
      && |g.tried| >= |Backoffs| && g.tried[..|Backoffs|] == [model, model, model]
      && (next.Success? ==> |g.tried| == 4 && g.tried[3] == next.value && next.value !in Exclusion(style, nameOf(model)))
      && (next.Failure? ==> |g.tried| == 3 && g.lastErr == Some(next.error) && g.text.None?)
  {
    OverloadsSoFar(call, model, parts, |Backoffs|);
    assert Backoffs[..3] == [500, 1000, 2000];
    var next := GetModel(prefs, l, Exclusion(style, nameOf(model)));
    if next.Success? {
      GetModelPicksFirstQualifying(prefs, l, Exclusion(style, nameOf(model)));
    }
  }

  /** The fallback call happens only after three 503s on the primary model. */
  lemma {:induction false} FallbackOnlyAfterOverloads(prefs: seq<string>, l: Listing, call: Provider, nameOf: string -> string,
                                                      style: ExclusionStyle, model: string, parts: seq<Part>)
    requires |Run(prefs, l, call, nameOf, style, model, parts).tried| > |Backoffs|
    ensures forall j :: 0 <= j < |Backoffs| ==> call(model, parts, j).Threw? && IsOverload(call(model, parts, j).err)
  {
    var p := PrimaryAfter(call, model, parts, |Backoffs|);
    PrimaryShape(call, model, parts, |Backoffs|);
    assert NeedsFallback(p);
    assert !p.stopped by {
      if p.stopped {
        // A loop that broke out either has text or a non-503 error.
        StoppedReason(call, model, parts, |Backoffs|);
      }
    }
    forall j | 0 <= j < |Backoffs|
      ensures call(model, parts, j).Threw? && IsOverload(call(model, parts, j).err)
    {
      NotStoppedMeansOverloads(call, model, parts, |Backoffs|, j);
    }
  }

  /** A loop that broke out did so on a reply or on an error other than 503. */
  lemma {:induction false} StoppedReason(call: Provider, model: string, parts: seq<Part>, n: nat)
    requires n <= |Backoffs|
    requires PrimaryAfter(call, model, parts, n).stopped
    ensures !NeedsFallback(PrimaryAfter(call, model, parts, n))
  {
    if n > 0 && PrimaryAfter(call, model, parts, n - 1).stopped {
      StoppedReason(call, model, parts, n - 1);
    }
  }

  /** A loop still running after n iterations met a 503 on each of them. */
  lemma {:induction false} NotStoppedMeansOverloads(call: Provider, model: string, parts: seq<Part>, n: nat, j: nat)
    requires j < n <= |Backoffs|
    requires !PrimaryAfter(call, model, parts, n).stopped
    ensures call(model, parts, j).Threw? && IsOverload(call(model, parts, j).err)
  {
    if j < n - 1 {
      NotStoppedMeansOverloads(call, model, parts, n - 1, j);
    }
  }

  /** The two ways of building the exclusion list select the same model when '' is not a preferred id. */
  lemma {:induction false} ExclusionStylesAgree(prefs: seq<string>, l: Listing, name: string)
    requires "" !in prefs
    ensures GetModel(prefs, l, Exclusion(TriedModels, name)) == GetModel(prefs, l, Exclusion(SingleName, name))
  {
    if Listed(l) {
      SelectModelRespectsPrefs(prefs, CatalogNames(Catalog(l)), Exclusion(TriedModels, name), Exclusion(SingleName, name));
    }
  }

  /** Selection depends only on which preferred ids are excluded. */
  lemma {:induction false} SelectModelRespectsPrefs(prefs: seq<string>, names: set<string>, e1: seq<string>, e2: seq<string>)
    requires forall m :: m in prefs ==> (m in e1 <==> m in e2)
    ensures SelectModel(prefs, names, e1) == SelectModel(prefs, names, e2)
  {
    if prefs != [] {
      SelectModelRespectsPrefs(prefs[1..], names, e1, e2);
    }
  }

  /**
   * The exclusion holds the name the SDK reports, not the id that was picked. If
   * that name carries the `models/` prefix, the fallback can pick the same model again.
   */
  lemma FallbackMayRepeatPrimary()
    ensures var m := "gemini-2.5-flash";
      var l := Listing(true, 200, Some([PrefixedName(m)]));
      Run(DefaultModels, l, AlwaysOverloaded, PrefixedName, SingleName, m, []).tried == [m, m, m, m]
  {
    var m := "gemini-2.5-flash";
    var l := Listing(true, 200, Some([PrefixedName(m)]));
    AllOverloadsFallBack(DefaultModels, l, AlwaysOverloaded, PrefixedName, SingleName, m, []);
    PrefixedPrimaryIsPickedAgain(m);
    var g := Run(DefaultModels, l, AlwaysOverloaded, PrefixedName, SingleName, m, []);
    ThreeThenOne(g.tried, m);
  }

  lemma ThreeThenOne(tried: seq<string>, m: string)
    requires |tried| == 4 && tried[..3] == [m, m, m] && tried[3] == m
    ensures tried == [m, m, m, m]
  {
    assert tried == tried[..3] + [tried[3]];
  }

  /** When the catalog lists the first preferred id under its prefixed name, excluding that name leaves the id selectable. */
  lemma PrefixedPrimaryIsPickedAgain(m: string)
    requires DefaultModels[0] == m
    ensures GetModel(DefaultModels, Listing(true, 200, Some([PrefixedName(m)])), Exclusion(SingleName, PrefixedName(m))) == Success(m)
  {
    var e := Exclusion(SingleName, PrefixedName(m));
    assert e == [PrefixedName(m)];
    StripModelsPrefixOnce(m);
    assert CatalogNames([PrefixedName(m)]) == {m};
    assert |m| < |PrefixedName(m)|;
    assert Qualifies(DefaultModels[0], {m}, e);
  }

  /** A provider answering every call with a 503. */
  function AlwaysOverloaded(model: string, parts: seq<Part>, attempt: nat): (r: Reply)
    ensures r.Threw? && IsOverload(r.err)
  {
    Threw(CallError(Some(503), ""))
  }

  /** The name the SDK reports for a model id: with the `models/` prefix. */
  function PrefixedName(model: string): string {
    "models/" + model
  }

  /**
   * The error text of the 503 response every failed generation gets: the overload
   * text exactly when the last error's status is 503, otherwise that error's message
   * or the handler's own fallback text. None when there is text to go on with.
   */
  function FailureMessage(g: Generation, fallbackText: string): (r: Option<string>)
    ensures r.None? <==> !NoText(g.text)
    ensures r.Some? && g.lastErr.Some? && IsOverload(g.lastErr.value) ==> r.value == OverloadMessage
    ensures r.Some? && !(g.lastErr.Some? && IsOverload(g.lastErr.value)) ==>
              r.value == if g.lastErr.Some? && g.lastErr.value.message != "" then g.lastErr.value.message else fallbackText
  {
    if !NoText(g.text) then None
    else if g.lastErr.Some? && IsOverload(g.lastErr.value) then Some(OverloadMessage)
    else if g.lastErr.Some? && g.lastErr.value.message != "" then Some(g.lastErr.value.message)
    else Some(fallbackText)
  }

  /** A reply of '' is no text: it is reported as a failure with the handler's fallback text. */
  lemma EmptyReplyFails(prefs: seq<string>, l: Listing, call: Provider, nameOf: string -> string,
                        style: ExclusionStyle, model: string, parts: seq<Part>, fallbackText: string)
    requires call(model, parts, 0) == Replied("")
    ensures var g := Run(prefs, l, call, nameOf, style, model, parts);
      g.tried == [model] && g.waits == [] && FailureMessage(g, fallbackText) == Some(fallbackText)
  {
    StoppedStaysStopped(call, model, parts, 1, |Backoffs|);
  }
}
