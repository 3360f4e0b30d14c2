/** Values that cross the wire between the browser and the two Django apps:
    optional values, JSON documents, and HTTP replies. */
module Wire {

  /** A value that may be absent (Python's None, JavaScript's undefined). */
  datatype Option<+T> = None | Some(value: T)

  /** A JSON document. Numbers are integers: no endpoint exchanges fractions. */
  datatype Json =
    | Null
    | Bool(b: bool)
    | Num(n: int)
    | Str(s: string)
    | Arr(items: seq<Json>)
    | Obj(fields: map<string, Json>)

  /** JavaScript truthiness of a parsed JSON value: null, false, 0 and "" are
      falsy, every array and every object (even an empty one) is truthy. */
  predicate Truthy(v: Json) {
    match v
    case Null => false
    case Bool(b) => b
    case Num(n) => n != 0
    case Str(s) => s != ""
    case Arr(_) => true
    case Obj(_) => true
  }

  /** Property access `v.key` on a non-null value: undefined (None) unless `v`
      is an object that has the key. */
  function Member(v: Json, key: string): Option<Json> {
    if v.Obj? && key in v.fields then Some(v.fields[key]) else None
  }

  /** Optional chaining `v?.key`: undefined when `v` is undefined or null. */
  function OptionalMember(v: Option<Json>, key: string): Option<Json> {
    if v.None? || v.value.Null? then None else Member(v.value, key)
  }

  /** Truthiness of a possibly undefined value. */
  predicate TruthyOpt(v: Option<Json>) {
    v.Some? && Truthy(v.value)
  }

  /** An HTTP reply: a status code with a JSON object body, or the bare 500
      page Django serves when a view raises an exception it does not catch. */
  datatype Response =
    | Reply(code: int, body: map<string, Json>)
    | UnhandledError

  /** Renders a list of strings as a JSON array of strings. */
  function Strs(xs: seq<string>): Json {
    Arr(seq(|xs|, k requires 0 <= k < |xs| => Str(xs[k])))
  }
}
