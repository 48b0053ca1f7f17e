/**
 * The JSON documents serde produces and accepts, as objects from field name
 * to value. The text syntax of JSON is not part of this model.
 */
module Json {
  import opened Wrappers
  import opened Db

  datatype JsonValue =
    | JNull
    | JString(text: string)
    | JInt(number: int)
    | JUuid(uuid: Uuid)      // the `uuid_serializer` string form of a UUID
    | JTime(time: Timestamp) // serde's form of a `PrimitiveDateTime`

  type JsonObject = map<string, JsonValue>

  /** How serde writes an `Option<String>`: `None` becomes `null`. */
  function OptString(v: Option<string>): JsonValue
  {
    match v
    case None => JNull
    case Some(s) => JString(s)
  }

  /**
   * How serde reads an `Option<String>` field: absent or `null` is `None`, a
   * string is `Some`, anything else is an error (the outer `None`).
   */
  function ReadOptString(o: JsonObject, key: string): (r: Option<Option<string>>)
    ensures key !in o ==> r == Some(None)
  {
    if key !in o then Some(None)
    else match o[key]
      case JNull => Some(None)
      case JString(s) => Some(Some(s))
      case _ => None
  }

  /** Reading an `Option<i64>` field: the integer must fit in an `i64`. */
  function ReadOptI64(o: JsonObject, key: string): (r: Option<Option<I64>>)
  {
    if key !in o then Some(None)
    else match o[key]
      case JNull => Some(None)
      case JInt(n) => if -0x8000_0000_0000_0000 <= n < 0x8000_0000_0000_0000 then Some(Some(n)) else None
      case _ => None
  }
}
