/** Decoded JSON values as the request handler sees them after `request.get_json()`,
    together with Python's truthiness test and `dict.get`. */
module Json {

  /** A decoded JSON value. Numbers are kept as reals: JSON does not distinguish
      integers from floats, and only their truthiness matters to the handler. */
  datatype Value =
    | Null
    | Bool(b: bool)
    | Number(n: real)
    | Str(s: string)
    | Array(items: seq<Value>)
    | Object(fields: map<string, Value>)

  /** Python's truth value of the object the decoder produces for `v`:
      None, False, zero, "", [] and {} are false, everything else is true. */
  predicate Truthy(v: Value) {
    match v
    case Null => false
    case Bool(b) => b
    case Number(n) => n != 0.0
    case Str(s) => |s| > 0
    case Array(items) => |items| > 0
    case Object(fields) => |fields| > 0
  }

  /** `data.get(key)`: the value stored under `key`, or None when the key is absent. */
  function Get(data: map<string, Value>, key: string): Value {
    if key in data then data[key] else Null
  }

  /** A truthy value read with `Get` was really present in the map: an absent
      key reads as None, which is false. */
  lemma TruthyGetIsPresent(data: map<string, Value>, key: string)
    requires Truthy(Get(data, key))
    ensures key in data && data[key] == Get(data, key)
  {
  }
}
