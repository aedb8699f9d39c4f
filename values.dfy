/** Value types shared by the whole model: Python's None as an Option, and the
    JSON values a device may post. */
module Values {

  /** A value that may be Python's `None`. */
  datatype Option<+T> = None | Some(value: T)

  /** A JSON value as Flask's `request.get_json()` decodes it. `Null` is
      Python's `None`, which `jsonify` writes back as `null`. */
  datatype Json =
    | Null
    | Bool(b: bool)
    | Number(x: real)
    | Str(s: string)
    | Arr(items: seq<Json>)
    | Obj(fields: map<string, Json>)

  /** `dict.get(key)`: the stored value, or `None` when the key is absent. */
  function Lookup(d: map<string, Json>, key: string): (v: Json)
    ensures key in d ==> v == d[key]
    ensures key !in d ==> v == Null
  {
    if key in d then d[key] else Null
  }
}
