/**
 * JSON documents as abstract values. `encoding/json` and Python's `json` are not modelled
 * byte for byte: a marshalled document is its value, and an unmarshal either yields a value
 * or fails.
 */
module JsonValues {
  datatype Value =
    | Null
    | Bool(b: bool)
    | Int(i: int)
    | Str(s: string)
    | List(items: seq<Value>)
    | Object(fields: map<string, Value>)
    /** An opaque timestamp (`time.Now()`), which JSON renders as a string. */
    | Time(stamp: int)
}
