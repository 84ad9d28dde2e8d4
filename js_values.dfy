/** The JSON values a request body can carry, and the JavaScript notions the
    order validators apply to them: truthiness, property lookup with
    `undefined` for a missing key, and `Number.isInteger`. */
module JsValues {

  /** A JSON value as JavaScript sees it after parsing. Numbers are split into
      those with an integral value and those without one. `JSON.parse` never
      yields NaN, so a number without an integral value is never zero. */
  datatype Value =
    | Absent                          // `undefined`: the key is not present
    | Null
    | Bool(b: bool)
    | Int(i: int)                     // a number whose value is an integer
    | Fraction                        // a number that is not an integer: a fraction, or
                                      // ±Infinity from an out-of-range literal
    | Str(s: string)
    | Arr(items: seq<Value>)
    | Obj(fields: map<string, Value>)

  /** The request's `data` object; a body without `data` is the empty object. */
  type Body = map<string, Value>

  /** JavaScript's boolean coercion (`if (v)`). Arrays and objects are truthy
      even when empty. */
  predicate Truthy(v: Value)
  {
    match v
    case Absent => false
    case Null => false
    case Bool(b) => b
    case Int(i) => i != 0
    case Fraction => true
    case Str(s) => s != ""
    case Arr(_) => true
    case Obj(_) => true
  }

  /** The falsy values of JavaScript that JSON can produce, listed once. */
  const FalsyValues: set<Value> := {Absent, Null, Bool(false), Int(0), Str("")}

  /** `Truthy` agrees with the list of falsy values. */
  lemma TruthyIffNotFalsy(v: Value)
    ensures Truthy(v) <==> v !in FalsyValues
  {
    match v
    case Bool(b) =>
    case Int(i) =>
    case Str(s) =>
    case _ =>
  }

  /** `obj[key]`: the value stored under `key`, or `undefined`. */
  function Lookup(obj: map<string, Value>, key: string): (v: Value)
  {
    if key in obj then obj[key] else Absent
  }

  /** `Number.isInteger(v) && v > 0`. */
  predicate IsPositiveInteger(v: Value)
  {
    v.Int? && v.i > 0
  }
}
