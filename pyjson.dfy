/** JSON values as Python's `json.loads` produces them, with the two Python
    operations the backends apply to them: truthiness and `dict.get`. */
module PyJson {

  datatype Option<+T> = None | Some(value: T) {
    function GetOr(default: T): T {
      match this
      case Some(v) => v
      case None => default
    }
  }

  /** A decoded JSON document. Integers and floats are kept apart because the
      backends copy them into their output unchanged (`0` and `0.0` differ on
      the wire). Objects are only ever looked up by key, so a map suffices. */
  datatype Json =
    | JNull
    | JBool(b: bool)
    | JInt(i: int)
    | JFloat(r: real)
    | JStr(s: string)
    | JArr(items: seq<Json>)
    | JObj(fields: map<string, Json>)

  /** Python's `bool(v)` for a decoded JSON value. */
  predicate Truthy(j: Json) {
    match j
    case JNull => false
    case JBool(b) => b
    case JInt(i) => i != 0
    case JFloat(r) => r != 0.0
    case JStr(s) => s != ""
    case JArr(a) => a != []
    case JObj(m) => m != map[]
  }

  /** `d.get(key, default)` on a dict. */
  function GetOr(d: map<string, Json>, key: string, default: Json): (v: Json)
    ensures key in d ==> v == d[key]
    ensures key !in d ==> v == default
  {
    if key in d then d[key] else default
  }

  /** `d.get(key)`: the value, or `None` (JSON null) when the key is absent. */
  function Get(d: map<string, Json>, key: string): Json {
    GetOr(d, key, JNull)
  }

  /** `if d.get(key):` */
  predicate Has(d: map<string, Json>, key: string) {
    Truthy(Get(d, key))
  }
}
