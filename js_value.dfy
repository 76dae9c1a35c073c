/**
 * The slice of JavaScript value semantics the extension relies on when it
 * reads a parsed JSON body: truthiness, the `a || b` default idiom,
 * property reads and the numeric coercion performed by `/`.
 */
module JsValue {
  import opened Wrappers

  /** A value produced by `JSON.parse`. Object keys are unique, so a map. */
  datatype Json =
    | JNull
    | JBool(b: bool)
    | JNum(n: real)
    | JStr(s: string)
    | JArr(items: seq<Json>)
    | JObj(fields: map<string, Json>)

  /** A JavaScript number after arithmetic: a finite value or NaN. */
  datatype Number = Finite(value: real) | NaN

  /**
   * JavaScript truthiness of a property read; `None` is `undefined`.
   * The falsy JSON values are null, false, 0 and the empty string.
   */
  predicate Truthy(v: Option<Json>)
  {
    match v
    case None => false
    case Some(JNull) => false
    case Some(JBool(b)) => b
    case Some(JNum(n)) => n != 0.0
    case Some(JStr(s)) => s != ""
    case Some(_) => true
  }

  /** `v || fallback`: the value itself when truthy, else the fallback. */
  function OrElse(v: Option<Json>, fallback: Json): (r: Json)
    ensures Truthy(v) ==> Some(r) == v
    ensures !Truthy(v) ==> r == fallback
  {
    if Truthy(v) then v.value else fallback
  }

  /**
   * `obj[key]` on a value that is not null (reading a property of null
   * throws, and the callers check that first). Only objects carry the
   * properties the extension reads.
   */
  function Member(obj: Json, key: string): (r: Option<Json>)
    requires obj != JNull
    ensures r.Some? <==> obj.JObj? && key in obj.fields
    ensures r.Some? ==> r.value == obj.fields[key]
  {
    match obj
    case JObj(fields) => if key in fields then Some(fields[key]) else None
    case _ => None
  }

  /**
   * The `ToNumber` coercion applied to the left operand of `/`.
   * Numbers, booleans and null are exact; every string, array and object is
   * taken to coerce to NaN.
   */
  function ToNumber(v: Json): (r: Number)
    ensures v.JNum? ==> r == Finite(v.n)
    ensures v == JNull ==> r == Finite(0.0)
    ensures v.JBool? ==> r == Finite(if v.b then 1.0 else 0.0)
    ensures (v.JStr? || v.JArr? || v.JObj?) ==> r == NaN
  {
    match v
    case JNull => Finite(0.0)
    case JBool(b) => Finite(if b then 1.0 else 0.0)
    case JNum(n) => Finite(n)
    case _ => NaN
  }

  /** `x / d` for a positive constant divisor. */
  function Divide(x: Number, d: real): (r: Number)
    requires d > 0.0
    ensures r.Finite? <==> x.Finite?
    ensures r.Finite? ==> r.value * d == x.value
  {
    match x
    case Finite(v) => Finite(v / d)
    case NaN => NaN
  }
}
