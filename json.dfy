/** JSON-like payload values as the SDK assembles them before `JSON.stringify`:
    the bodies sent to and received from a provider, and tool arguments. */
module Json {

  /** A JavaScript number. Only whether it is truthy matters to the SDK, so
      finite numbers are kept as reals and the one falsy non-real, NaN, is
      distinguished. */
  datatype Number = Num(value: real) | NaN

  /** JavaScript truthiness of a number: neither zero nor NaN. */
  predicate Truthy(n: Number) {
    n.Num? && n.value != 0.0
  }

  /** A payload value. Objects are maps, so the order of their keys is not
      kept. `JBytes` is a binary host object (an image given as bytes) that a
      payload carries as it is. */
  datatype Json =
    | JNull
    | JBool(b: bool)
    | JNum(n: Number)
    | JStr(s: string)
    | JBytes(bytes: seq<bv8>)
    | JArr(items: seq<Json>)
    | JObj(fields: map<string, Json>)
}
