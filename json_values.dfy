/**
 * An abstract JSON value, standing for the element tree that kotlinx.serialization
 * builds (JsonObject, JsonArray, JsonPrimitive, JsonNull). The text form and the
 * parser/printer are not modelled: the client is handed a parser as a function.
 */
module JsonValues {
  import opened Wrappers

  datatype Json =
    | JNull
    | JBool(b: bool)
    | JNumber(literal: string)   // a number literal, kept as its text
    | JString(s: string)
    | JArray(items: seq<Json>)
    | JObject(fields: map<string, Json>)

  /**
   * The `content` of an element: the text of a primitive, "null" for JsonNull,
   * and nothing (the library throws) for an array or an object.
   */
  function Content(j: Json): (r: Option<string>)
    ensures r.None? <==> j.JArray? || j.JObject?
    ensures j.JString? ==> r == Some(j.s)
  {
    match j
    case JNull => Some("null")
    case JBool(b) => Some(if b then "true" else "false")
    case JNumber(lit) => Some(lit)
    case JString(s) => Some(s)
    case JArray(_) => None
    case JObject(_) => None
  }

  /** `obj[key]` for an object, None when absent or when `j` is not an object. */
  function Field(j: Json, key: string): Option<Json>
  {
    if j.JObject? && key in j.fields then Some(j.fields[key]) else None
  }
}
