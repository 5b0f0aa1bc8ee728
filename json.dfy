/**
 * An abstract JSON value, standing for what `json.loads` produces and
 * `json.dumps` consumes. The text form is never modelled: a `Codec` holds the
 * two conversions as uninterpreted functions.
 */
module JsonValues {
  import opened Wrappers

  datatype Json =
    | JNull
    | JBool(b: bool)
    | JNumber(n: int)
    | JString(s: string)
    | JArray(items: seq<Json>)
    | JObject(fields: map<string, Json>)

  /** `json.loads` (None when it raises) and `json.dumps`. */
  datatype Codec = Codec(parse: string -> Option<Json>, dump: Json -> string)

  /** `json.loads(json.dumps(v)) == v`, as the standard library promises for these values. */
  ghost predicate RoundTrips(codec: Codec) {
    forall j :: codec.parse(codec.dump(j)) == Some(j)
  }
}
