/**
 * The extension's local key-value store (`browser.storage.local`) and the one
 * read-modify-write the code performs on it directly: the generation counter.
 */
module Storage {
  import opened Js

  /**
   * `String(v)` for the values `+` can meet. JavaScript's number-to-text
   * conversion is floating-point formatting and is passed in as `numText`.
   */
  function JsText(v: Json, numText: real -> string): string
    decreases v
  {
    match v
    case JNull => "null"
    case JBool(b) => if b then "true" else "false"
    case JNum(n) => numText(n)
    case JStr(s) => s
    case JObj(_) => "[object Object]"
    case JArr(items) =>
      // Array.prototype.join(','): null elements print as the empty string
      JoinText(seq(|items|, i requires 0 <= i < |items| =>
        if items[i].JNull? then "" else JsText(items[i], numText)))
  }

  function JoinText(parts: seq<string>): string {
    if |parts| == 0 then "" else if |parts| == 1 then parts[0] else parts[0] + "," + JoinText(parts[1..])
  }

  /**
   * `(v || 0) + 1`. Numbers and booleans add; a string, object or array
   * operand turns `+` into concatenation with "1".
   */
  function NextCount(v: Option<Json>, numText: real -> string): (r: Json)
    ensures !TruthyOpt(v) ==> r == JNum(1.0)
    ensures v.Some? && v.value.JNum? ==> r == JNum(v.value.n + 1.0)
  {
    match Or(v, JNum(0.0))
    case JNum(n) => JNum(n + 1.0)
    case JBool(b) => JNum(if b then 2.0 else 1.0)
    case JNull => JNum(1.0)
    case other => JStr(JsText(other, numText) + "1")
  }

  class LocalStorage {
    var items: map<string, Json>

    constructor (initial: map<string, Json>)
      ensures items == initial
    {
      items := initial;
    }

    /** `get(key)[key]` */
    function Read(key: string): (r: Option<Json>)
      reads this
      ensures r.Some? <==> key in items
      ensures r.Some? ==> r.value == items[key]
    {
      if key in items then Some(items[key]) else None
    }

    /** `set(entries)`: the given keys are overwritten, every other key is kept. */
    method Set(entries: map<string, Json>)
      modifies this
      ensures items == old(items) + entries
      ensures forall k :: k in old(items) && k !in entries ==> k in items && items[k] == old(items)[k]
    {
      items := items + entries;
    }

    /**
     * `incrementGenerationCounter`: the stored count goes up by one, starting
     * from 1 when there is none; nothing else in the store changes.
     */
    method IncrementGenerationCounter(numText: real -> string)
      modifies this
      ensures items == old(items)["generatedEmails" := NextCount(old(Read("generatedEmails")), numText)]
      ensures old(Read("generatedEmails")) == None ==> items["generatedEmails"] == JNum(1.0)
    {
      var current := Read("generatedEmails");
      var next := NextCount(current, numText);
      Set(map["generatedEmails" := next]);
    }
  }

  /** Counting up from a stored number adds exactly one, and counting from nothing gives 1. */
  lemma CounterCounts(n: real, numText: real -> string)
    ensures NextCount(Some(JNum(n)), numText) == JNum(n + 1.0)
    ensures NextCount(None, numText) == JNum(1.0)
  {
  }
}
