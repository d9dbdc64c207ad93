/** The small part of JavaScript's value model that the slider's settings
    object and its string building depend on: values, property lookup,
    conversion to string, `+` with a number, and jQuery's shallow `$.extend`. */
module JsObjects {

  /** A JavaScript value. Numbers are integers or NaN; fractional numbers
      are not modelled. */
  datatype JsValue =
    | JUndefined
    | JNull
    | JBool(b: bool)
    | JNum(n: int)
    | JNaN
    | JStr(s: string)
    | JArray(items: seq<JsValue>)

  /** The own enumerable properties of a plain object. */
  type Props = map<string, JsValue>

  /** `obj[key]`: a missing property reads as `undefined`. */
  function Get(props: Props, key: string): JsValue
  {
    if key in props then props[key] else JUndefined
  }

  function DigitChar(d: nat): (c: char)
    requires d < 10
    ensures '0' <= c <= '9' && c as int - '0' as int == d
  {
    "0123456789"[d]
  }

  predicate AllDigits(s: string)
  {
    forall i :: 0 <= i < |s| ==> '0' <= s[i] <= '9'
  }

  /** The decimal digits of a natural number, most significant first. */
  function Decimal(n: nat): (r: string)
    ensures |r| >= 1 && AllDigits(r)
    ensures r[0] == '0' ==> n == 0
  {
    if n < 10 then [DigitChar(n)] else Decimal(n / 10) + [DigitChar(n % 10)]
  }

  /** Reads a string of decimal digits back as a number. */
  function DecimalValue(s: string): nat
    requires AllDigits(s)
  {
    if s == [] then 0
    else 10 * DecimalValue(s[..|s| - 1]) + (s[|s| - 1] as int - '0' as int)
  }

  /** `Decimal` loses nothing: reading its digits back gives the number. */
  lemma {:induction false} DecimalRoundTrip(n: nat)
    ensures DecimalValue(Decimal(n)) == n
  {
    if n >= 10 {
      DecimalRoundTrip(n / 10);
      var r := Decimal(n);
      assert r[..|r| - 1] == Decimal(n / 10);
    }
  }

  /** `String(n)` for an integer `n`. */
  function NumberToString(n: int): string
  {
    if n < 0 then "-" + Decimal(-n) else Decimal(n)
  }

  /** `String(v)`, which is also what `"..." + v` appends and what `obj[v]`
      uses as the property name. An array is joined with commas, its
      `null` and `undefined` elements reading as empty. */
  function ToString(v: JsValue): string
  {
    match v
    case JUndefined => "undefined"
    case JNull => "null"
    case JBool(b) => if b then "true" else "false"
    case JNum(n) => NumberToString(n)
    case JNaN => "NaN"
    case JStr(s) => s
    case JArray(items) => JoinItems(items)
  }

  function JoinItems(items: seq<JsValue>): string
  {
    if items == [] then ""
    else
      var head := if items[0].JUndefined? || items[0].JNull? then "" else ToString(items[0]);
      if |items| == 1 then head else head + "," + JoinItems(items[1..])
  }

  /** `v + n` for a number `n`: string concatenation when `v` converts to a
      string primitive (a string, or an array through its comma-joined
      `String`), numeric addition otherwise, with `null` read as 0, booleans
      as 0 or 1, and `undefined` or NaN giving NaN. */
  function Plus(v: JsValue, n: int): JsValue
  {
    match v
    case JUndefined => JNaN
    case JNull => JNum(n)
    case JBool(b) => JNum((if b then 1 else 0) + n)
    case JNum(m) => JNum(m + n)
    case JNaN => JNaN
    case JStr(s) => JStr(s + NumberToString(n))
    case JArray(_) => JStr(ToString(v) + NumberToString(n))
  }

  /** jQuery's shallow `$.extend(target, source)`: every property of
      `source` whose value is not `undefined` is copied onto `target`,
      replacing what was there; every other property of `target` stays. */
  function Extend(target: Props, source: Props): (r: Props)
    ensures forall k :: k in r <==> k in target || (k in source && source[k] != JUndefined)
    ensures forall k :: k in source && source[k] != JUndefined ==> r[k] == source[k]
    ensures forall k :: k in target && (k !in source || source[k] == JUndefined) ==> r[k] == target[k]
  {
    map k | k in target.Keys + source.Keys && (k in target || source[k] != JUndefined) ::
      if k in source && source[k] != JUndefined then source[k] else target[k]
  }

  /** A property set by `Extend` can be read back; one it skips keeps its
      old reading. Stated with `Get`, which is how the slider reads them. */
  lemma ExtendGet(target: Props, source: Props, key: string)
    ensures Get(Extend(target, source), key) ==
      (if Get(source, key) != JUndefined then Get(source, key) else Get(target, key))
  {
  }

  /** A JavaScript object whose properties are reassigned in place. */
  class JsObject {
    var props: Props

    constructor (init: Props)
      ensures props == init
    {
      props := init;
    }

    /** `$.extend(this, source)`. */
    method ExtendWith(source: Props)
      modifies this
      ensures props == Extend(old(props), source)
    {
      props := Extend(props, source);
    }

    /** `this[key] = v`. */
    method Put(key: string, v: JsValue)
      modifies this
      ensures props == old(props)[key := v]
    {
      props := props[key := v];
    }
  }
}
