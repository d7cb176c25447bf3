/** Decoded JSON, as `json_decode($text, true)` returns it. */
module Json {
  import opened Wrappers

  /** A JSON value; objects keep their members in document order (PHP associative arrays). */
  datatype Json =
    | JNull
    | JBool(b: bool)
    | JInt(i: int)
    | JFloat(r: real)
    | JString(s: string)
    | JList(items: seq<Json>)
    | JObject(members: seq<(string, Json)>)

  /**
   * `json_decode` followed by `json_last_error_msg`: the decoded value, or
   * the decoder's error message (such as "Syntax error").
   */
  type Decoder = string -> Result<Json, string>
}
