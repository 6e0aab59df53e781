/** JavaScript values as the handler sees them after `req.json()`:
    JSON values, plus `undefined` for a property that is not there. */
module Json {

  /** An optional value: `None` when there is none. Where it wraps a
      `Json`, `None` is JavaScript's `undefined`. */
  datatype Option<+T> = None | Some(value: T)

  /** A value produced by JSON parsing. JSON text has no NaN, no
      `undefined` and no functions, so these six forms are all there is. */
  datatype Json =
    | JNull
    | JBool(b: bool)
    | JNum(n: real)
    | JStr(s: string)
    | JArr(items: seq<Json>)
    | JObj(fields: map<string, Json>)

  /** JavaScript's ToBoolean on a possibly-undefined JSON value: `undefined`,
      `null`, `false`, `0` and `""` are falsy; every array and object, even an
      empty one, is truthy. */
  predicate Truthy(v: Option<Json>) {
    match v
    case None => false
    case Some(JNull) => false
    case Some(JBool(b)) => b
    case Some(JNum(n)) => n != 0.0
    case Some(JStr(s)) => s != ""
    case Some(JArr(_)) => true
    case Some(JObj(_)) => true
  }

  /** Property read `v.key` on a defined value: an object's own field, and
      `undefined` (`None`) for anything else. */
  function Property(v: Json, key: string): Option<Json> {
    if v.JObj? && key in v.fields then Some(v.fields[key]) else None
  }

  /** The value of `a || b` when `b` is a defined value. */
  function Or(a: Option<Json>, b: Json): Json {
    if Truthy(a) then a.value else b
  }

  /** Converting `v` to a string (as a template literal does) throws a
      TypeError. A JSON value is never callable, so an object whose own
      `toString` key shadows the inherited method has no conversion that
      gives a primitive; an array converts by joining its elements, so it
      throws when one of them does. Any other value converts. */
  predicate ToStringThrows(v: Json) {
    match v
    case JObj(fields) => "toString" in fields
    case JArr(items) => exists i :: 0 <= i < |items| && ToStringThrows(items[i])
    case _ => false
  }
}
