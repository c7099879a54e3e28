/**
 * JSON values as JavaScript code sees them after `JSON.parse`, with
 * JavaScript's notion of truthiness. Serialisation is not modelled: a value is
 * written and read back as itself.
 */
module Json {

  datatype Json =
    | JNull
    | JBool(b: bool)
    | JNumber(n: int)
    | JString(s: string)
    | JArray(items: seq<Json>)
    | JObject(fields: map<string, Json>)

  /** `{}` */
  const EmptyObject: Json := JObject(map[])

  /** `!!v`: `null`, `false`, `0` and `""` are falsy; arrays and objects are truthy. */
  predicate Truthy(v: Json) {
    match v
    case JNull => false
    case JBool(b) => b
    case JNumber(n) => n != 0
    case JString(s) => s != ""
    case JArray(_) => true
    case JObject(_) => true
  }

  /** A one-field object literal `{ key: value }`. */
  function Single(key: string, value: Json): (o: Json)
    ensures o.JObject? && o.fields.Keys == {key} && o.fields[key] == value
    ensures Truthy(o)
  {
    JObject(map[key := value])
  }
}
