/**
 * The vocabulary shared by the HTTP client and its Axios binding: the four
 * verbs, header maps and the request record the serialization gate receives.
 */
module HttpTypes {
  import opened Wrappers
  import opened Json

  /** The `HttpMethod` enum; each member's string value is its own name. */
  datatype Method = GET | PATCH | POST | DELETE

  /**
   * A header object. Spreading header objects into one another (`{...a, ...b}`)
   * is map override in `a + b`: a key of the right operand wins.
   */
  type Headers = map<string, string>

  /** What `_http` hands to `_checkSerializeRequests`. `data` is None for `undefined`. */
  datatype Request = Request(url: string, verb: Method, headers: Headers, data: Option<JsonValue>, isInternal: bool)

  /** The media type of JSON:API 1.0, section "Content Negotiation". */
  const JsonApiMediaType: string := "application/vnd.api+json"

  /** The headers `_http` uses when its caller passes none. */
  function JsonApiHeaders(): (h: Headers)
    ensures h.Keys == {"Accept", "Content-Type"}
    ensures forall k :: k in h ==> h[k] == JsonApiMediaType
  {
    map["Accept" := JsonApiMediaType, "Content-Type" := JsonApiMediaType]
  }
}
