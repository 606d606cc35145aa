/** Decoded JSON values, as the HTTP responses deliver them. */
module Json {

  /** A JSON value. Numbers keep their literal text: the model never computes
      with a copied number, it only moves it from one record to another. */
  datatype Value =
    | Null
    | Bool(b: bool)
    | Number(literal: string)
    | Str(s: string)
    | Array(elems: seq<Value>)
    | Object(fields: map<string, Value>)

  /** A JSON object, i.e. a Python `dict` with string keys. */
  type Record = map<string, Value>
}
