/** A tree of JSON-like values, standing in for the untyped `[String: Any]`
    dictionaries that the client hands to the JSON serializer. Only the shapes
    the request body uses are present: strings, arrays and string-keyed objects. */
module Json {
  import opened Wrappers

  datatype Value =
    | Str(text: string)
    | Arr(items: seq<Value>)
    | Obj(fields: map<string, Value>)

  /** The member `key` of an object, or None for a missing key or a non-object. */
  function Member(v: Value, key: string): Option<Value>
  {
    if v.Obj? && key in v.fields then Some(v.fields[key]) else None
  }
}
