/**
 * Dynamically typed values as a YAML decoder produces them, and the two
 * failure-compatible wrappers the rest of the model uses.
 */
module Values {

  datatype Option<+T> = None | Some(value: T)

  datatype Result<+T, +E> = Ok(value: T) | Err(error: E)

  /** One decoded value. `VFloat` is an opaque token: no floating-point
      arithmetic is modelled, so a real number stands in for it. */
  datatype Value =
    | VNull
    | VBool(b: bool)
    | VInt(i: int)
    | VFloat(f: real)
    | VStr(s: string)
    | VList(items: seq<Value>)
    | VMap(entries: map<string, Value>)

  /** An untyped key/value record: a Python `dict` with string keys. */
  type Record = map<string, Value>
}
