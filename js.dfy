/**
 * JavaScript values as the extension sees them: the objects that `JSON.parse`
 * and `browser.storage.local.get` hand back, JavaScript truthiness, the `||`
 * default operator and property reads (`a.b` and `a?.b`).
 *
 * A property that is absent (`undefined`) is the `None` of `Option<Json>`.
 */
module Js {

  datatype Option<+T> = None | Some(value: T) {
    function GetOr(default: T): T {
      match this
      case Some(v) => v
      case None => default
    }
  }

  datatype Result<+T, +E> = Success(value: T) | Failure(error: E)

  /** A parsed JSON value (numbers are exact reals: JSON never yields NaN). */
  datatype Json =
    | JNull
    | JBool(b: bool)
    | JNum(n: real)
    | JStr(s: string)
    | JArr(items: seq<Json>)
    | JObj(fields: map<string, Json>)

  /** JavaScript truthiness of a JSON value. */
  predicate Truthy(v: Json) {
    match v
    case JNull => false
    case JBool(b) => b
    case JNum(n) => n != 0.0
    case JStr(s) => s != ""
    case JArr(_) => true
    case JObj(_) => true
  }

  /** Truthiness of a value that may be `undefined`. */
  predicate TruthyOpt(v: Option<Json>) {
    v.Some? && Truthy(v.value)
  }

  /** A canonical array index: decimal digits without a leading zero. */
  predicate IsIndexKey(key: string) {
    |key| > 0 && (forall i :: 0 <= i < |key| ==> '0' <= key[i] <= '9') && (key[0] != '0' || |key| == 1)
  }

  /** The number a string of decimal digits denotes. */
  function DecimalValue(key: string): nat
    requires forall i :: 0 <= i < |key| ==> '0' <= key[i] <= '9'
  {
    if key == [] then 0 else 10 * DecimalValue(key[..|key| - 1]) + (key[|key| - 1] as int - '0' as int)
  }

  /**
   * `v.key` / `v?.key` / `v?.[key]`: the own property of an object, or the
   * element of an array at a canonical index. Every other read gives
   * `undefined`: on `undefined` itself, on `false`, numbers and strings (whose
   * only properties the code could meet, `length` and character indices, yield
   * values on which the code's next step, another property read, gives
   * `undefined` again), and for the keys the code reads, none of which is a
   * property of `Object.prototype` with a truthy `message` or settings field.
   * (`null.key` throws; the callers that can meet `null` without `?.` check
   * for it first.)
   */
  function Get(v: Option<Json>, key: string): Option<Json> {
    if v.None? then None
    else match v.value
      case JObj(fields) => if key in fields then Some(fields[key]) else None
      case JArr(items) =>
        if IsIndexKey(key) && DecimalValue(key) < |items| then Some(items[DecimalValue(key)]) else None
      case _ => None
  }

  /** A JavaScript number: a finite value, an infinity, or NaN. */
  datatype Number = Finite(value: real) | Infinite(positive: bool) | NaN

  /**
   * JavaScript's `ToNumber` of a JSON value. `stringToNumber` is how a string
   * reads as a number. An array reads as the number its text gives: `[]` as
   * 0, a one-element array as its element's text would, and a longer one
   * (whose text holds a comma) as NaN; an object reads as NaN, since its text
   * is `[object Object]`.
   */
  function ToNumber(v: Json, stringToNumber: string -> Number): (r: Number)
    ensures v.JNum? ==> r == Finite(v.n)
    ensures v.JObj? || (v.JArr? && |v.items| > 1) ==> r == NaN
  {
    match v
    case JNull => Finite(0.0)
    case JBool(b) => Finite(if b then 1.0 else 0.0)
    case JNum(n) => Finite(n)
    case JStr(s) => stringToNumber(s)
    case JArr(items) => ArrayToNumber(items, stringToNumber)
    case JObj(_) => NaN
  }

  /** `ToNumber` of an array, through the comma-joined text of its elements. */
  function ArrayToNumber(items: seq<Json>, stringToNumber: string -> Number): Number
    decreases items
  {
    if |items| == 0 then Finite(0.0)
    else if |items| > 1 then NaN
    else match items[0]
      case JNull => Finite(0.0)
      case JBool(_) => NaN
      case JNum(n) => Finite(n)
      case JStr(s) => stringToNumber(s)
      case JArr(inner) => ArrayToNumber(inner, stringToNumber)
      case JObj(_) => NaN
  }

  /** `v || d` */
  function Or(v: Option<Json>, d: Json): (r: Json)
    ensures Truthy(d) ==> Truthy(r)
  {
    if TruthyOpt(v) then v.value else d
  }

  /** `r` is what `v || d` gives: the value when it is truthy, else the default. */
  predicate DefaultsTo(r: Json, v: Option<Json>, d: Json) {
    if TruthyOpt(v) then r == v.value else r == d
  }

  lemma OrDefaultsTo(v: Option<Json>, d: Json)
    ensures DefaultsTo(Or(v, d), v, d)
  {
  }

  /** A value that `_ || d` can produce: truthy, or the default itself. */
  predicate Settled(x: Json, d: Json) {
    Truthy(x) || x == d
  }

  /** Applying a default to a value it already settled changes nothing. */
  lemma OrSettled(x: Json, d: Json)
    requires Settled(x, d)
    ensures Or(Some(x), d) == x
  {
  }

  /** Applying the same default twice is applying it once. */
  lemma OrTwice(v: Option<Json>, d: Json)
    ensures Or(Some(Or(v, d)), d) == Or(v, d)
  {
  }
}
