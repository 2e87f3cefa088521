/**
 * The rules of the Axios binding that do not touch the network: how the
 * headers of a request are assembled, where its data goes, how a transport
 * outcome becomes the value or the error a caller sees. The `axios(...)`
 * call itself is replaced by a `TransportOutcome` supplied from outside.
 */
module AxiosBinding {
  import opened Wrappers
  import opened Json
  import opened HttpTypes

  const UrlMissing: string := "url is not defined!"
  const NoDataMessage: string := "request returned 200 status without data"

  /**
   * The headers sent with a request: an internal request layers the client's
   * default headers, then the headers computed before each request, then its
   * own; an external one sends its own headers only.
   */
  function MergeHeaders(defaults: Headers, added: Headers, req: Request): (h: Headers)
    ensures req.isInternal ==> h.Keys == defaults.Keys + added.Keys + req.headers.Keys
    ensures req.isInternal ==> forall k :: k in h ==>
      h[k] == if k in req.headers then req.headers[k] else if k in added then added[k] else defaults[k]
    ensures !req.isInternal ==> h == req.headers
  {
    if req.isInternal then defaults + added + req.headers else req.headers
  }

  /** Where the request's data travels: the query string or the body. */
  datatype Payload = Params(params: Option<JsonValue>) | Body(body: Option<JsonValue>)

  function PayloadData(p: Payload): Option<JsonValue> {
    match p
    case Params(d) => d
    case Body(d) => d
  }

  /** GET sends its data as query parameters, every other verb as the body; the data itself is untouched. */
  function PayloadFor(verb: Method, data: Option<JsonValue>): (p: Payload)
    ensures p.Params? <==> verb == GET
    ensures PayloadData(p) == data
  {
    if verb == GET then Params(data) else Body(data)
  }

  /** The configuration object passed to `axios`. */
  datatype AxiosConfig = AxiosConfig(url: string, verb: Method, headers: Headers, payload: Payload)

  function Config(defaults: Headers, added: Headers, req: Request): AxiosConfig {
    AxiosConfig(req.url, req.verb, MergeHeaders(defaults, added, req), PayloadFor(req.verb, req.data))
  }

  /** What the transport reports: a response with a status and possibly no data, or a rejection with a message. */
  datatype TransportOutcome = Response(status: int, data: Option<JsonValue>) | Failure(message: string)

  function FailurePrefix(url: string): string {
    "request for resource '" + url + "' failed: "
  }

  /** The message of the error raised for every failed request. */
  function FailureMessage(url: string, message: string): string {
    FailurePrefix(url) + message + "."
  }

  /** Recovers the underlying message from a wrapped one, if `m` has the wrapped form for `url`. */
  function UnwrapFailure(url: string, m: string): (r: Option<string>)
    ensures r.Some? ==> FailureMessage(url, r.value) == m
  {
    var p := FailurePrefix(url);
    if |m| > |p| && m[..|p|] == p && m[|m| - 1] == '.' then
      assert m == p + m[|p|..|m| - 1] + ".";
      Some(m[|p|..|m| - 1])
    else None
  }

  /** Every wrapped message can be unwrapped, so no two distinct failures read the same. */
  lemma UnwrapFailureMessage(url: string, message: string)
    ensures UnwrapFailure(url, FailureMessage(url, message)) == Some(message)
  {
    var p := FailurePrefix(url);
    var m := FailureMessage(url, message);
    assert m[..|p|] == p;
    assert m[|p|..|m| - 1] == message;
  }

  /** A 200 response without data: `response.data == null` holds for null and for undefined. */
  predicate EmptySuccess(outcome: TransportOutcome) {
    outcome.Response? && outcome.status == 200 && (outcome.data.None? || outcome.data == Some(Null))
  }

  /**
   * The value a request resolves to or the error it rejects with. A rejection
   * is either the transport's own or the missing-data check's, and both are
   * wrapped with the URL; a response with falsy data resolves to `{}`.
   */
  function Normalise(url: string, outcome: TransportOutcome): (r: Result<JsonValue, string>)
    ensures r.Err? <==> outcome.Failure? || EmptySuccess(outcome)
    ensures r.Err? ==> r.error == FailureMessage(url, if outcome.Failure? then outcome.message else NoDataMessage)
    ensures r.Ok? ==> Truthy(Some(r.value))
    ensures r.Ok? ==> r.value == if Truthy(outcome.data) then outcome.data.value else Obj([])
  {
    match outcome
    case Failure(message) => Err(FailureMessage(url, message))
    case Response(status, data) =>
      if EmptySuccess(outcome) then Err(FailureMessage(url, NoDataMessage))
      else Ok(if Truthy(data) then data.value else Obj([]))
  }
}
