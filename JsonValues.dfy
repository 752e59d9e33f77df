/** Decoded JSON documents, as `JSON.parse` hands them to the client. */
module JsonValues {

  /** A JSON value; numbers are kept as integers. */
  datatype Json =
    | Null
    | Bool(b: bool)
    | Number(n: int)
    | Str(s: string)
    | Arr(items: seq<Json>)
    | Obj(fields: map<string, Json>)
}
