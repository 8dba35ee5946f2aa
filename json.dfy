/** The JSON-like values the client library sends to and receives from the cluster. */
module Json {

  /** A decoded JSON value: Python's None, bool, int, str, list and dict. */
  datatype Value =
    | Null
    | Bool(b: bool)
    | Num(n: int)
    | Str(s: string)
    | Arr(items: seq<Value>)
    | Obj(fields: map<string, Value>)

  /** A Python dict with string keys: documents, hits, request bodies. */
  type Document = map<string, Value>
}
