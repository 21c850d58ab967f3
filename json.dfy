/**
 * The decoded form of the JSON that `conda --json` prints. The JSON grammar
 * itself is not modelled: `json.loads` is an arbitrary `Decoder`, and only
 * decoded objects are considered (every JSON document conda prints is an object).
 */
module Json {
  import opened Wrappers

  datatype Value =
    | Null
    | Bool(b: bool)
    | Number(n: real)
    | Str(s: string)
    | Array(items: seq<Value>)
    | Object(fields: map<string, Value>)

  /** A decoded top-level JSON object, as a Python dict. */
  type Object = map<string, Value>

  /** `json.loads`: `None` where Python raises `ValueError`. */
  type Decoder = string -> Option<Object>

  /** What every decoder does: the empty string is not a JSON document. */
  predicate RejectsEmpty(decode: Decoder) {
    decode("") == None
  }

  /** Python's `len(v)`: defined on strings, lists and dicts; `None` where Python raises `TypeError`. */
  function Len(v: Value): (n: Option<nat>)
    ensures n.Some? <==> v.Str? || v.Array? || v.Object?
  {
    match v
    case Str(s) => Some(|s|)
    case Array(items) => Some(|items|)
    case Object(fields) => Some(|fields|)
    case _ => None
  }
}
