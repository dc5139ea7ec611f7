/**
 * JSON values as they travel between the browser and the checkout endpoint.
 * Numbers are integers here: every number the core sends or reads is a
 * whole count or amount.
 */
module Json {

  import opened Wrappers

  datatype JsonValue =
    | JNull
    | JBool(b: bool)
    | JNumber(n: int)
    | JString(s: string)
    | JArray(elems: seq<JsonValue>)
    | JObject(fields: map<string, JsonValue>)

  /** JavaScript truthiness of a value read from parsed JSON; `None` is `undefined`. */
  predicate Truthy(v: Option<JsonValue>) {
    match v
    case None => false
    case Some(JNull) => false
    case Some(JBool(b)) => b
    case Some(JNumber(n)) => n != 0
    case Some(JString(s)) => s != ""
    case Some(_) => true
  }

  /**
   * Reading a property off a parsed body that is known not to be null:
   * only objects have own properties, anything else yields `undefined`.
   */
  function Property(body: JsonValue, name: string): Option<JsonValue> {
    match body
    case JObject(fields) => if name in fields then Some(fields[name]) else None
    case _ => None
  }
}
