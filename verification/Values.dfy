/** Payload values. */
module Values {
  /** A Python value as it occurs in a payload. */
  datatype Value =
    | Null
    | Bool(bool)
    | Number(int)
    | Text(string)
    | List(seq<Value>)
    | Tuple(seq<Value>)
    | Dict(seq<(string, Value)>)
}
