/** The values a payload field may hold (PHP `mixed`), as JSON-like trees. */
module Json {
  import opened OrderedMaps

  datatype Value =
    | Null
    | Bool(b: bool)
    | Int(i: int)
    | Str(s: string)
    | List(items: seq<Value>)
    | Obj(fields: seq<(string, Value)>)
  {
    /** True of the values that pass a PHP `array` type hint. */
    predicate IsArray() {
      List? || Obj?
    }
  }

  /** An object's fields, in insertion order. */
  type Fields = Assoc<Value>
}
