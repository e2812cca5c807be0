/** Decoded JSON values, as `json.loads` hands them to the module, and the
    two Python exceptions that subscripting them can raise. */
module Json {

  /** A decoded JSON document: a Python dict becomes JObj, a list JArr. */
  datatype Json =
    | JNull
    | JBool(b: bool)
    | JNum(n: int)
    | JStr(s: string)
    | JArr(items: seq<Json>)
    | JObj(fields: map<string, Json>)

  /** The exceptions raised by `value[key]` on decoded JSON. */
  datatype PyError = KeyError | TypeError

  datatype Option<+T> = None | Some(value: T)

  /** Either the value of an expression or the exception it raised. */
  datatype Result<+T> = Ok(value: T) | Err(error: PyError)

  /** Python's `value[key]` for a string key: a dict without the key raises
      KeyError, anything that is not a dict raises TypeError. */
  function Lookup(value: Json, key: string): (r: Result<Json>)
    ensures r.Ok? <==> value.JObj? && key in value.fields
    ensures r.Ok? ==> r.value == value.fields[key]
    ensures r.Err? ==> (r.error == KeyError <==> value.JObj?)
  {
    match value
    case JObj(fields) => if key in fields then Ok(fields[key]) else Err(KeyError)
    case _ => Err(TypeError)
  }
}
