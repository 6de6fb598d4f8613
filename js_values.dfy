/** The slice of JavaScript's value domain that the shop and item models
    read and write: the untyped property values of a params object. */
module JsValues {

  /** A JavaScript number. Only NaN and finite values are represented;
      the value is the exact real (no rounding to a double). */
  datatype Number = NaN | Finite(r: real)

  /** A JavaScript value. `DateObj(arg)` is the object `new Date(arg)`;
      an `Obj` is a plain object given by its own properties. */
  datatype Value =
    | Undefined
    | Null
    | Bool(b: bool)
    | Str(s: string)
    | Num(n: Number)
    | Arr(elems: seq<Value>)
    | Obj(props: map<string, Value>)
    | DateObj(arg: Value)

  /** A plain object used as a parameter bag; a missing key reads as undefined. */
  type Params = map<string, Value>

  /** The number 0. */
  const Zero: Value := Num(Finite(0.0))

  /** ECMAScript ToBoolean: `undefined`, `null`, `false`, `''`, `0` and NaN
      are falsy, everything else (every object and array) is truthy. */
  predicate Truthy(v: Value)
  {
    match v
    case Undefined => false
    case Null => false
    case Bool(b) => b
    case Str(s) => s != ""
    case Num(n) => n.Finite? && n.r != 0.0
    case Arr(_) => true
    case Obj(_) => true
    case DateObj(_) => true
  }

  /** Property read `o[key]`: absent keys read as undefined. */
  function Get(o: Params, key: string): (v: Value)
    ensures key !in o ==> v == Undefined
    ensures key in o ==> v == o[key]
  {
    if key in o then o[key] else Undefined
  }

  /** The `a || b` operator: `a` when it is truthy, otherwise `b`. */
  function Or(a: Value, b: Value): (v: Value)
    ensures Truthy(a) ==> v == a
    ensures !Truthy(a) ==> v == b
    ensures Truthy(v) <==> Truthy(a) || Truthy(b)
  {
    if Truthy(a) then a else b
  }
}
