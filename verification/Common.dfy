/** Result shapes shared by the validators and handlers. */
module Common {

  datatype Option<+T> = None | Some(value: T)

  /** The `{ valid, error?, data? }` objects the serverless validators return:
      either the normalised data or the first error message. */
  datatype Checked<+T> = Valid(data: T) | Invalid(error: string)
}

/** The JSON values a request body can parse to, and the property lookups
    a handler makes on them. */
module Json {
  import opened Common

  datatype Json =
    | JNull
    | JBool(b: bool)
    | JNumber(n: int)
    | JString(s: string)
    | JArray(items: seq<Json>)
    | JObject(fields: map<string, Json>)

  /** `!v || typeof v !== "object"` is false: a non-null object, which in
      JavaScript includes arrays. */
  predicate IsObjectLike(v: Json)
  {
    v.JObject? || v.JArray?
  }

  /** `(v as Record<string, unknown>)[name]` for the field names the handlers
      read ("type", "name", "email", "message", "context", "role", "content",
      "messages"): present only on an object that has the key; `None` stands
      for `undefined`. */
  function Field(v: Json, name: string): (r: Option<Json>)
    ensures r.Some? <==> v.JObject? && name in v.fields
    ensures r.Some? ==> r.value == v.fields[name]
  {
    if v.JObject? && name in v.fields then Some(v.fields[name]) else None
  }

  /** The field is present and holds exactly the string `s`. */
  predicate FieldIs(v: Json, name: string, s: string)
  {
    Field(v, name) == Some(JString(s))
  }
}
