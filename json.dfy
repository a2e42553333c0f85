/**
 * JSON values as Go's encoding/json decodes them into `interface{}`:
 * objects become `map[string]interface{}`, numbers become `float64`
 * (modelled as `real`: the model has no NaN, infinities or rounding).
 */
module Json {

  datatype Value =
    | Null
    | Bool(b: bool)
    | Num(x: real)
    | Str(s: string)
    | Arr(items: seq<Value>)
    | Obj(fields: map<string, Value>)

  /** `m[k]` on a Go map: a missing key reads as the nil interface. */
  function Lookup(m: map<string, Value>, k: string): Value
  {
    if k in m then m[k] else Null
  }

  /**
   * The value reached from `v` by indexing with each key of `path` in turn,
   * where every intermediate value must be an object; `Null` otherwise.
   * This is the reference reading of a chain of `x[k].(map[string]interface{})`
   * type assertions.
   */
  function At(v: Value, path: seq<string>): Value
    decreases |path|
  {
    if path == [] then v
    else match v
      case Obj(m) => At(Lookup(m, path[0]), path[1..])
      case _ => Null
  }

  /** Go's `int(f)` conversion of an in-range float: truncation toward zero. */
  function Trunc(x: real): (n: int)
    ensures 0.0 <= x ==> n as real <= x < n as real + 1.0
    ensures x < 0.0 ==> n as real - 1.0 < x <= n as real
  {
    if 0.0 <= x then x.Floor else -((-x).Floor)
  }
}
