/** Parsed JSON values and the few JavaScript evaluation rules the gateway's
    handlers rely on: reading a property, strict comparison with undefined,
    and the conversion of a field to a number before arithmetic. */
module Js {

  datatype Option<+T> = None | Some(value: T)

  /** A value as JSON.parse produces it. */
  datatype Json =
    | JNull
    | JBool(b: bool)
    | JNum(n: real)
    | JStr(s: string)
    | JArr(items: seq<Json>)
    | JObj(fields: map<string, Json>)

  /** The own properties of a plain object. */
  type Fields = map<string, Json>

  /** The outcome of a JavaScript expression that may throw a TypeError. */
  datatype Eval<+T> = Value(value: T) | TypeError

  /** `o.k` on a plain object; None is `undefined`. */
  function Lookup(o: Fields, k: string): Option<Json>
  {
    if k in o then Some(o[k]) else None
  }

  /** `v.k` where v may itself be undefined (None): reading a property of
      undefined or of null throws; a value that is not an object has none
      of the properties this gateway reads. */
  function Read(v: Option<Json>, k: string): Eval<Option<Json>>
  {
    match v
    case None => TypeError
    case Some(JNull) => TypeError
    case Some(JObj(o)) => Value(Lookup(o, k))
    case Some(_) => Value(None)
  }

  /** True when reading a property of v throws. */
  predicate IsNullish(v: Option<Json>)
  {
    v.None? || v == Some(JNull)
  }

  /** JavaScript's ToNumber applied to a property value, as `<`, `-` and `*`
      apply it; None stands for NaN. Strings, arrays and objects count as NaN
      here. */
  function ToNumber(v: Option<Json>): Option<real>
  {
    match v
    case None => None
    case Some(JNull) => Some(0.0)
    case Some(JBool(b)) => Some(if b then 1.0 else 0.0)
    case Some(JNum(n)) => Some(n)
    case Some(_) => None
  }

  /** `v === n` for a number n: only a number equal to n passes. */
  predicate StrictEqualsNumber(v: Option<Json>, n: real)
  {
    v == Some(JNum(n))
  }

  /** How JSON.stringify writes a number that may be NaN. */
  function NumberToJson(x: Option<real>): Json
  {
    match x
    case Some(n) => JNum(n)
    case None => JNull
  }
}
