/** Decoded JSON, as the client receives it from a response body. */
module Json {
  /** One JSON value. Numbers are kept as opaque reals: the client only moves them around. */
  datatype Value =
    | Null
    | Bool(b: bool)
    | Num(n: real)
    | Str(s: string)
    | Arr(items: seq<Value>)
    | Obj(fields: map<string, Value>)

  /** A JSON object, such as one location point. */
  type Record = map<string, Value>

  /** `dict.get(d, key)`: the stored value, or `Null` (Python's `None`) when the key is absent. */
  function Get(d: Record, key: string): (v: Value)
    ensures key !in d ==> v == Null
    ensures v == Null <==> key !in d || d[key] == Null
  {
    if key in d then d[key] else Null
  }
}
