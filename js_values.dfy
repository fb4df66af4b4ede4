/**
 * The JavaScript values that flow through the handlers: request bodies, parsed
 * model replies and stored documents. Numbers are integers here; the handlers
 * only compare, default and parse them.
 */
module JsValues {
  import opened Wrappers
  import opened Strings

  datatype JsValue =
    | Undefined
    | Null
    | Bool(b: bool)
    | Num(n: int)
    | Str(s: string)
    | Arr(items: seq<JsValue>)
    | Obj(fields: map<string, JsValue>)

  /** A property read on `null` or `undefined`, or a call of something that is not a function. */
  datatype TypeError = TypeError

  /** JavaScript truthiness: `undefined`, `null`, `false`, `0` and `''` are falsy. */
  predicate Truthy(v: JsValue) {
    match v
    case Undefined => false
    case Null => false
    case Bool(b) => b
    case Num(n) => n != 0
    case Str(s) => s != ""
    case Arr(_) => true
    case Obj(_) => true
  }

  /** `a || b`. */
  function Or(a: JsValue, b: JsValue): (r: JsValue)
    ensures Truthy(a) ==> r == a
    ensures !Truthy(a) ==> r == b
  {
    if Truthy(a) then a else b
  }

  /** `m[key]` on a plain object held as a map: a missing key reads as `undefined`. */
  function Prop(m: map<string, JsValue>, key: string): JsValue {
    if key in m then m[key] else Undefined
  }

  /** `v.key`: throws on `null` and `undefined`; other non-objects have none of the keys the handlers read. */
  function Get(v: JsValue, key: string): (r: Result<JsValue, TypeError>)
    ensures r.Failure? <==> v.Null? || v.Undefined?
  {
    match v
    case Undefined => Failure(TypeError)
    case Null => Failure(TypeError)
    case Obj(m) => Success(Prop(m, key))
    case _ => Success(Undefined)
  }

  /** `v?.key`: optional chaining reads `undefined` instead of throwing. */
  function OptGet(v: JsValue, key: string): JsValue {
    match v
    case Obj(m) => Prop(m, key)
    case _ => Undefined
  }

  /** `String(v)`; inside an array, `null` and `undefined` print as the empty string. */
  function ToString(v: JsValue): string {
    match v
    case Undefined => "undefined"
    case Null => "null"
    case Bool(b) => if b then "true" else "false"
    case Num(n) => NumberToString(n)
    case Str(s) => s
    case Arr(xs) =>
      Join(seq(|xs|, i requires 0 <= i < |xs| => if xs[i].Null? || xs[i].Undefined? then "" else ToString(xs[i])), ",")
    case Obj(_) => "[object Object]"
  }

  /** `arr.join(sep)`. */
  function JoinValues(xs: seq<JsValue>, sep: string): string {
    Join(seq(|xs|, i requires 0 <= i < |xs| => if xs[i].Null? || xs[i].Undefined? then "" else ToString(xs[i])), sep)
  }

  /** `parseInt(v)`: the value is first converted to a string. None stands for NaN. */
  function ParseIntValue(v: JsValue): Option<int> {
    ParseInt(ToString(v))
  }

  /**
   * `parseInt` of an integer gives the integer back below 10^21 in magnitude;
   * from there on `String` writes exponent notation and only the leading digit
   * is read, with the sign.
   */
  lemma ParseIntOfNumber(n: int)
    ensures -ExponentThreshold < n < ExponentThreshold ==> ParseIntValue(Num(n)) == Some(n)
    ensures n >= ExponentThreshold ==> ParseIntValue(Num(n)) == Some(LeadingDigit(n))
    ensures n <= -ExponentThreshold ==> ParseIntValue(Num(n)) == Some(-(LeadingDigit(Magnitude(n)) as int))
  {
    assert ToString(Num(n)) == NumberToString(n);
    ParseIntOfNumberToString(n);
  }

  /** `parseInt(v) || d` for an integer default d: NaN and 0 both give way to the default. */
  function ParseIntOr(v: JsValue, d: int): (r: int)
    ensures r == d || (ParseIntValue(v).Some? && r == ParseIntValue(v).value != 0)
    ensures (ParseIntValue(v).None? || ParseIntValue(v) == Some(0)) ==> r == d
  {
    match ParseIntValue(v)
    case None => d
    case Some(n) => if n != 0 then n else d
  }

  /**
   * `Number(v)`, the conversion that `<` and `>` apply to a non-string operand:
   * `null` is 0, booleans are 1 and 0, a string is read as decimal text, and
   * arrays and plain objects go through their string form. None stands for NaN.
   */
  function ToNumber(v: JsValue): Option<int> {
    match v
    case Undefined => None
    case Null => Some(0)
    case Bool(b) => Some(if b then 1 else 0)
    case Num(n) => Some(n)
    case Str(s) => StringToNumber(s)
    case _ => StringToNumber(ToString(v))
  }

  /**
   * `Number` reads back what `String` writes for every integer below 10^21 in
   * magnitude, and a one-element array converts like its element.
   */
  lemma ToNumberOfNumberString(n: int)
    ensures -ExponentThreshold < n < ExponentThreshold ==> ToNumber(Str(ToString(Num(n)))) == Some(n)
    ensures -ExponentThreshold < n < ExponentThreshold ==> ToNumber(Arr([Num(n)])) == Some(n)
  {
    if -ExponentThreshold < n < ExponentThreshold {
      NumberToStringBelowThreshold(n);
      StringToNumberOfIntToString(n);
      ToStringOfSingleton(Num(n));
    }
  }

  /** A one-element array prints as its element, unless that is `null` or `undefined`. */
  lemma ToStringOfSingleton(v: JsValue)
    requires !v.Null? && !v.Undefined?
    ensures ToString(Arr([v])) == ToString(v)
  {
    var xs := [v];
    assert seq(|xs|, i requires 0 <= i < |xs| => if xs[i].Null? || xs[i].Undefined? then "" else ToString(xs[i])) == [ToString(v)];
  }
}
