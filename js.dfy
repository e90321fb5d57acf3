/** The few JavaScript semantics the request handlers rely on: destructuring a
    request body, `typeof`, `Boolean(...)`, the `x || 0` fallback applied to the
    results of `parseInt`/`parseFloat`, and the two ways a handler stamps time. */
module Js {

  datatype Option<+T> = None | Some(value: T)

  /** A JSON-compatible JavaScript value. Numbers are reals: NaN and the
      infinities cannot arrive in a JSON body and are not represented. */
  datatype Value =
    | Undefined
    | Null
    | Bool(b: bool)
    | Number(n: real)
    | Str(s: string)
    | Arr(items: seq<Value>)
    | Obj(props: map<string, Value>)

  /** A point in time, in milliseconds since the epoch, in the form a handler
      stores it: `new Date().toISOString()`, `Date.now()` or `new Date()`. */
  datatype Stamp = IsoString(ms: int) | EpochMillis(ms: int) | DateObject(ms: int)

  /** Reading an own property of an object; an absent key reads as `undefined`. */
  function Field(props: map<string, Value>, key: string): Value
  {
    if key in props then props[key] else Undefined
  }

  /** `const { key } = v`: throws a TypeError (None) on `null` and `undefined`,
      reads an own property of an object, and reads `undefined` from any other value. */
  function Destructure(v: Value, key: string): (r: Option<Value>)
    ensures r.None? <==> v.Undefined? || v.Null?
    ensures v.Obj? ==> r == Some(Field(v.props, key))
    ensures r.Some? && !v.Obj? ==> r.value == Undefined
  {
    match v
    case Undefined => None
    case Null => None
    case Obj(props) => Some(Field(props, key))
    case _ => Some(Undefined)
  }

  /** `typeof v`. */
  function TypeOf(v: Value): (t: string)
    ensures t == "number" <==> v.Number?
    ensures t == "object" <==> v.Null? || v.Arr? || v.Obj?
  {
    match v
    case Undefined => "undefined"
    case Null => "object"
    case Bool(_) => "boolean"
    case Number(_) => "number"
    case Str(_) => "string"
    case Arr(_) => "object"
    case Obj(_) => "object"
  }

  /** `Boolean(v)`: false exactly for undefined, null, false, 0 and the empty string. */
  predicate Truthy(v: Value)
    ensures !Truthy(v) <==>
      v == Undefined || v == Null || v == Bool(false) || v == Number(0.0) || v == Str("")
  {
    match v
    case Undefined => false
    case Null => false
    case Bool(b) => b
    case Number(n) => n != 0.0
    case Str(s) => s != ""
    case Arr(_) => true
    case Obj(_) => true
  }

  /** `parseInt(x) || 0`, given what `parseInt` returned (None for NaN): both
      falsy results, NaN and 0, fall back to 0, and any other integer is kept. */
  function IntOrZero(parsed: Option<int>): (r: int)
    ensures parsed.Some? ==> r == parsed.value
    ensures parsed.None? ==> r == 0
  {
    if parsed.None? || parsed.value == 0 then 0 else parsed.value
  }

  /** `parseFloat(x) || 0`, given what `parseFloat` returned (None for NaN). */
  function NumberOrZero(parsed: Option<real>): (r: real)
    ensures parsed.Some? ==> r == parsed.value
    ensures parsed.None? ==> r == 0.0
  {
    if parsed.None? || parsed.value == 0.0 then 0.0 else parsed.value
  }
}
