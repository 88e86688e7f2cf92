/** The Python values that cross the source's dynamic boundaries: what
    `json.loads` produces and what callers pass as an extraction result. */
module Json {

  /** A JSON-shaped Python value. Object keys are strings and, as in a
      Python dict, a key appears at most once. Numbers are kept as reals;
      nothing here depends on their value. */
  datatype Value =
    | Null
    | Bool(b: bool)
    | Num(x: real)
    | Str(s: string)
    | List(items: seq<Value>)
    | Dict(fields: map<string, Value>)

  /** `isinstance(v, dict) and key in v` */
  predicate HasKey(v: Value, key: string)
  {
    v.Dict? && key in v.fields
  }
}
