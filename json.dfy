/** The values `JSON.parse` can produce. Numbers are kept as reals: nothing in
    the client computes with them. */
module JsonValues {
  import opened Wrappers

  datatype Json =
    | JNull
    | JBool(b: bool)
    | JNumber(n: real)
    | JString(s: string)
    | JArray(items: seq<Json>)
    | JObject(fields: map<string, Json>)

  /** The value an empty response body stands for: `{}`. */
  const EmptyObject: Json := JObject(map[])

  /** `value.errors !== undefined ? value.errors : undefined` for a decoded
      value. Arrays, strings, numbers and booleans have no `errors` property,
      so only an object with an own `errors` key has one. Reading a property
      of `null` throws, hence the requires. */
  function ErrorsField(value: Json): (r: Option<Json>)
    requires value != JNull
    // only an object can carry the field, and then it is its own `errors` key
    ensures r.Some? ==> value.JObject? && "errors" in value.fields && r.value == value.fields["errors"]
    // arrays, strings, numbers, booleans and objects without the key have none
    ensures !value.JObject? || "errors" !in value.fields ==> r.None?
  {
    if value.JObject? && "errors" in value.fields then Some(value.fields["errors"]) else None
  }
}
