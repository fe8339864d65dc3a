/** A JSON-like value as the source receives it from the document store or the generator,
    before any schema has looked at it. `Undefined` stands for a missing key. */
module Json {

  datatype Value =
    | Undefined
    | Null
    | Bool(b: bool)
    | Num(n: real)
    | Str(s: string)
    | Arr(items: seq<Value>)
    | Obj(fields: map<string, Value>)

  /** `obj[key]`: a missing key reads as `Undefined`. */
  function Get(fields: map<string, Value>, key: string): Value {
    if key in fields then fields[key] else Undefined
  }
}
