/**
 * JavaScript values as the server side of the application sees them: request bodies,
 * spreadsheet cells and the objects decoded from them.
 */
module Js {

  datatype Option<+T> = None | Some(value: T)

  /** A JavaScript value, as far as this application produces or inspects one. */
  datatype Value = Undefined | Bool(b: bool) | Str(s: string) | Num(x: real) | NaN

  /** A plain object: its own properties. JavaScript turns keys into strings; here a key is a value. */
  type Obj = map<Value, Value>

  /** The errors that the adapters throw and the handlers turn into a status 500 response. */
  datatype Thrown =
    | NotFound(id: Value)               // `Item with ID ${id} not found`
    | TypeError(reason: string)          // a property read on undefined
    | ReferenceError(name: string)       // `${name} is not defined`
    | ServiceFailure(message: string)    // the spreadsheet client or service failed
    | RequestFailure(message: string)    // a fetch wrapper rejected

  datatype Result<+T> = Ok(value: T) | Err(error: Thrown)

  /** JavaScript truthiness: `undefined`, `false`, `''`, `0` and `NaN` are falsy. */
  predicate Truthy(v: Value)
  {
    match v
    case Undefined => false
    case Bool(b) => b
    case Str(s) => s != ""
    case Num(x) => x != 0.0
    case NaN => false
  }

  /** `a || b`. */
  function Or(a: Value, b: Value): Value
  {
    if Truthy(a) then a else b
  }

  /** A value that survives `v || ''`: it is truthy or already ''. */
  predicate TextKept(v: Value)
  {
    Truthy(v) || v == Str("")
  }

  /** `a === b`: NaN equals nothing, everything else compares by value. */
  predicate StrictEquals(a: Value, b: Value)
  {
    !a.NaN? && a == b
  }

  /** `o[key]` for a string key; a missing property reads as `undefined`. */
  function Prop(o: Obj, key: string): Value
  {
    if Str(key) in o then o[Str(key)] else Undefined
  }

  /** `o[key]` for an arbitrary key value. */
  function Lookup(o: Obj, key: Value): Value
  {
    if key in o then o[key] else Undefined
  }

  /** `Number(v)` for the operands the arithmetic meets here; `None` stands for NaN. */
  function ToNumber(v: Value): Option<real>
  {
    match v
    case Num(x) => Some(x)
    case Bool(b) => Some(if b then 1.0 else 0.0)
    case _ => None
  }

  /** `a * b`. */
  function Times(a: Value, b: Value): (r: Value)
    ensures r.Num? <==> ToNumber(a).Some? && ToNumber(b).Some?
    ensures r.Num? ==> r.x == ToNumber(a).value * ToNumber(b).value
  {
    match (ToNumber(a), ToNumber(b))
    case (Some(x), Some(y)) => Num(x * y)
    case _ => NaN
  }

  /** `a - b`. */
  function Minus(a: Value, b: Value): (r: Value)
    ensures r.Num? <==> ToNumber(a).Some? && ToNumber(b).Some?
    ensures r.Num? ==> r.x == ToNumber(a).value - ToNumber(b).value
  {
    match (ToNumber(a), ToNumber(b))
    case (Some(x), Some(y)) => Num(x - y)
    case _ => NaN
  }

  /** `a + b` on numbers. */
  function Plus(a: Value, b: Value): (r: Value)
    ensures r.Num? <==> ToNumber(a).Some? && ToNumber(b).Some?
    ensures r.Num? ==> r.x == ToNumber(a).value + ToNumber(b).value
  {
    match (ToNumber(a), ToNumber(b))
    case (Some(x), Some(y)) => Num(x + y)
    case _ => NaN
  }
}
