/**
 * The values that decoding a JSON text produces: the shape of a plan as the
 * application sees it after decoding the model's reply.
 */
module JsonValue {

  /** A decoded JSON value. Numbers are kept as integers; objects as maps from key to value. */
  datatype Json =
    | JNull
    | JBool(b: bool)
    | JNum(n: int)
    | JStr(s: string)
    | JArr(items: seq<Json>)
    | JObj(fields: map<string, Json>)
}
