/** The shape of a decoded JSON document (RFC 8259). Decoding text into this
    shape is done by a collaborator outside the model; the runner only looks
    values up in it. */
module Json {

  datatype Json =
    | Null
    | Bool(b: bool)
    | Number(literal: string)
    | String(s: string)
    | Array(items: seq<Json>)
    | Object(fields: map<string, Json>)

  /** `doc[key]` for an object that has the key; missing otherwise, as is every
      key of a non-object. */
  predicate HasField(doc: Json, key: string)
  {
    doc.Object? && key in doc.fields
  }
}
