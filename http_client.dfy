/**
 * The HTTP client: the abstract base class with the Axios binding's overrides
 * filled in. Its fields are the ones the source keeps on the instance; each
 * method that changes them is tied to a step of the gate in `RequestGate`.
 */
module JsonApiHttpClient {
  import opened Wrappers
  import opened Json
  import opened HttpTypes
  import opened AxiosBinding
  import opened RequestGate

  /**
   * The constructor's options. `addHeadersBeforeRequest` stands for the
   * headers the callback returns; None when no callback is given.
   */
  datatype HttpClientOptions = HttpClientOptions(
    urlPrefix: Option<string>,
    headers: Option<Headers>,
    addHeadersBeforeRequest: Option<Headers>)

  /** What a dispatch hands back: the request's number, and the transport configuration if it started at once. */
  datatype Dispatched = Dispatched(id: nat, started: Option<AxiosConfig>)

  /** The path `buildUrl` appends to the prefix: the type, then the id when there is one, each after a slash, and a closing slash. */
  function ResourcePath(kind: string, id: Option<string>): string {
    "/" + kind + (if id.Some? then "/" + id.value else "") + "/"
  }

  predicate NoSlash(s: string) {
    forall i :: 0 <= i < |s| ==> s[i] != '/'
  }

  /** Position of the first slash in `s`, or |s| when there is none. */
  function FirstSlash(s: string): (k: nat)
    ensures k <= |s| && NoSlash(s[..k]) && (k < |s| ==> s[k] == '/')
  {
    if s == [] || s[0] == '/' then 0
    else
      var k := FirstSlash(s[1..]);
      assert s[..k + 1] == [s[0]] + s[1..][..k];
      k + 1
  }

  /** Reads the type and id back out of a path of the form `ResourcePath` builds. */
  function SplitResourcePath(path: string): Option<(string, Option<string>)> {
    if |path| < 2 || path[0] != '/' || path[|path| - 1] != '/' then None
    else
      var inner := path[1..|path| - 1];
      var k := FirstSlash(inner);
      if k == |inner| then Some((inner, None)) else Some((inner[..k], Some(inner[k + 1..])))
  }

  lemma FirstSlashOf(kind: string, rest: string)
    requires NoSlash(kind) && (rest == [] || rest[0] == '/')
    ensures FirstSlash(kind + rest) == |kind|
  {
    var s := kind + rest;
    var k := FirstSlash(s);
    assert forall i :: 0 <= i < |kind| ==> s[i] == kind[i];
    assert rest != [] ==> s[|kind|] == '/';
    assert forall i :: 0 <= i < k ==> s[..k][i] == s[i];
  }

  /** Distinct types and ids give distinct paths, as long as neither contains a slash. */
  lemma {:induction false} ResourcePathRoundTrip(kind: string, id: Option<string>)
    requires NoSlash(kind) && (id.Some? ==> NoSlash(id.value))
    ensures SplitResourcePath(ResourcePath(kind, id)) == Some((kind, id))
  {
    var path := ResourcePath(kind, id);
    var rest := if id.Some? then "/" + id.value else "";
    assert path == "/" + (kind + rest) + "/";
    var inner := path[1..|path| - 1];
    assert inner == kind + rest;
    FirstSlashOf(kind, rest);
    if id.Some? {
      assert inner[..|kind|] == kind;
      assert inner[|kind| + 1..] == id.value;
    } else {
      assert inner == kind;
    }
  }

  lemma ResourcePathExamples()
    ensures ResourcePath("foo", Some("2")) == "/foo/2/"
    ensures ResourcePath("4", Some("2")) == "/4/2/"
    ensures ResourcePath("foo", Some("0")) == "/foo/0/"
    ensures ResourcePath("foo", None) == "/foo/"
    ensures ResourcePath("4", None) == "/4/"
  {
  }

  /**
   * What `buildUrl` gives: the prefix, then a path from which the type and
   * the id (or its absence) can be read back when neither holds a slash; an
   * id of "0" is kept like any other.
   */
  lemma BuildUrlParts(c: HttpClient, kind: string, id: Option<string>)
    ensures var p, url := c.urlPrefix.GetOr(""), c.BuildUrl(kind, id);
      |url| > |p| && url[..|p|] == p &&
      (NoSlash(kind) && (id.Some? ==> NoSlash(id.value)) ==> SplitResourcePath(url[|p|..]) == Some((kind, id)))
  {
    var p, url := c.urlPrefix.GetOr(""), c.BuildUrl(kind, id);
    assert url[|p|..] == ResourcePath(kind, id);
    if NoSlash(kind) && (id.Some? ==> NoSlash(id.value)) {
      ResourcePathRoundTrip(kind, id);
    }
  }

  /** The request `_http` passes to the gate: its headers default to the JSON:API ones, `isInternal` to true. */
  function HttpRequest(verb: Method, url: string, data: Option<JsonValue>, headers: Option<Headers>, isInternal: Option<bool>): (r: Request)
    ensures r.url == url && r.verb == verb && r.data == data
    ensures headers.None? ==> r.headers == JsonApiHeaders()
    ensures headers.Some? ==> r.headers == headers.value
    ensures r.isInternal == (isInternal != Some(false))
  {
    Request(url, verb, headers.GetOr(JsonApiHeaders()), data, isInternal.GetOr(true))
  }

  /** The options object `request` fills in place before calling `_http`. */
  class RequestOptions {
    var verb: Option<Method>
    var headers: Option<Headers>
    var internal: Option<bool>
    var data: Option<JsonValue>

    constructor(verb: Option<Method>, headers: Option<Headers>, internal: Option<bool>, data: Option<JsonValue>)
      ensures this.verb == verb && this.headers == headers && this.internal == internal && this.data == data
    {
      this.verb := verb;
      this.headers := headers;
      this.internal := internal;
      this.data := data;
    }
  }

  class HttpClient {
    var urlPrefix: Option<string>
    var serializeRequests: bool
    var defaultHeaders: Headers
    var addedHeaders: Headers
    var outstanding: set<nat>
    var requests: seq<Pending>
    var starts: seq<nat>

    function State(): Gate
      reads this
    {
      Gate(serializeRequests, outstanding, requests, starts)
    }

    ghost predicate Valid()
      reads this
    {
      Inv(State())
    }

    /** Without options the prefix is the empty string; missing headers and callback mean no extra headers. */
    constructor(options: Option<HttpClientOptions>)
      ensures Valid() && State() == Initial()
      ensures urlPrefix == if options.None? then Some("") else options.value.urlPrefix
      ensures defaultHeaders == if options.Some? && options.value.headers.Some? then options.value.headers.value else map[]
      ensures addedHeaders ==
        if options.Some? && options.value.addHeadersBeforeRequest.Some? then options.value.addHeadersBeforeRequest.value else map[]
    {
      var o := options.GetOr(HttpClientOptions(Some(""), None, None));
      urlPrefix := o.urlPrefix;
      serializeRequests := false;
      outstanding := {};
      defaultHeaders := o.headers.GetOr(map[]);
      addedHeaders := o.addHeadersBeforeRequest.GetOr(map[]);
      requests := [];
      starts := [];
      InitialInv();
    }

    /** `buildUrl`: the prefix, or nothing when it is missing or empty, followed by the resource path. */
    function BuildUrl(kind: string, id: Option<string>): string
      reads this
    {
      urlPrefix.GetOr("") + ResourcePath(kind, id)
    }

    /** The transport configuration `_checkSerializeRequests` produces at once, which it does only with the flag off. */
    function Immediate(req: Request): Option<AxiosConfig>
      reads this
    {
      if serializeRequests then None else Some(Config(defaultHeaders, addedHeaders, req))
    }

    method SetSerializeRequests(on: bool)
      requires Valid()
      modifies this`serializeRequests
      ensures Valid() && State() == old(State()).(serialize := on)
    {
      SetFlagInv(State(), on);
      serializeRequests := on;
    }

    /** `_checkSerializeRequests`, with `_makeRequest` producing the Axios configuration when the request starts at once. */
    method CheckSerializeRequests(req: Request) returns (d: Dispatched)
      requires Valid()
      modifies this`outstanding, this`requests, this`starts
      ensures Valid() && State() == Admit(old(State()), req)
      ensures d.id == old(|requests|)
      ensures d.started == Immediate(req)
    {
      AdmitInv(State(), req);
      d := Dispatched(|requests|, None);
      if serializeRequests {
        requests := requests + [Pending(req, true, outstanding, false, None)];
      } else {
        requests := requests + [Pending(req, false, {}, true, None)];
        starts := starts + [d.id];
        d := d.(started := Some(Config(defaultHeaders, addedHeaders, req)));
      }
      outstanding := outstanding + {d.id};
    }

    /** The continuation of a gated request runs; it calls the transport if everything it waits for has settled. */
    method Start(id: nat) returns (config: Option<AxiosConfig>)
      requires Valid() && id < |requests|
      modifies this`requests, this`starts
      ensures Valid() && State() == Begin(old(State()), id)
      ensures config == if Ready(old(State()), id) then Some(Config(defaultHeaders, addedHeaders, requests[id].request)) else None
    {
      BeginInv(State(), id);
      if Ready(State(), id) {
        requests := requests[id := requests[id].(started := true)];
        starts := starts + [id];
        config := Some(Config(defaultHeaders, addedHeaders, requests[id].request));
      } else {
        config := None;
      }
    }

    /** The transport reports back for a running request; its promise settles and it leaves the outstanding set. */
    method Settle(id: nat, outcome: TransportOutcome) returns (result: Result<JsonValue, string>)
      requires Valid() && id in outstanding && requests[id].started
      modifies this`outstanding, this`requests
      ensures Valid() && State() == Finish(old(State()), id, outcome)
      ensures result == Normalise(old(requests[id].request.url), outcome)
    {
      FinishInv(State(), id, outcome);
      result := Normalise(requests[id].request.url, outcome);
      requests := requests[id := requests[id].(result := Some(result))];
      outstanding := outstanding - {id};
    }

    /** The base class's `_http`: it fills in the defaults and hands the request to the gate. */
    method BaseHttp(verb: Method, url: string, data: Option<JsonValue>, headers: Option<Headers>, isInternal: Option<bool>)
      returns (d: Dispatched)
      requires Valid()
      modifies this`outstanding, this`requests, this`starts
      ensures Valid() && State() == Admit(old(State()), HttpRequest(verb, url, data, headers, isInternal))
      ensures d.id == old(|requests|) && d.started == Immediate(HttpRequest(verb, url, data, headers, isInternal))
    {
      d := CheckSerializeRequests(HttpRequest(verb, url, data, headers, isInternal));
    }

    /** The Axios binding's `_http`: an empty URL is refused before the gate sees the request. */
    method Http(verb: Method, url: string, data: Option<JsonValue>, headers: Option<Headers>, isInternal: Option<bool>)
      returns (r: Result<Dispatched, string>)
      requires Valid()
      modifies this`outstanding, this`requests, this`starts
      ensures Valid()
      ensures r.Err? <==> url == ""
      ensures r.Err? ==> r.error == UrlMissing && State() == old(State())
      ensures r.Ok? ==> r.value.id == old(|requests|) && r.value.started == Immediate(HttpRequest(verb, url, data, headers, isInternal))
      ensures r.Ok? ==> State() == Admit(old(State()), HttpRequest(verb, url, data, headers, isInternal))
    {
      if url == "" {
        return Err(UrlMissing);
      }
      var d := BaseHttp(verb, url, data, headers, isInternal);
      r := Ok(d);
    }

    method Get(link: string, query: Option<JsonValue>) returns (r: Result<Dispatched, string>)
      requires Valid()
      modifies this`outstanding, this`requests, this`starts
      ensures Valid() && (r.Err? <==> link == "")
      ensures r.Err? ==> r.error == UrlMissing && State() == old(State())
      ensures r.Ok? ==> r.value.id == old(|requests|)
      ensures r.Ok? ==> State() == Admit(old(State()), HttpRequest(GET, link, query, None, None))
    {
      r := Http(GET, link, query, None, None);
    }

    method Create(link: string, payload: JsonValue) returns (r: Result<Dispatched, string>)
      requires Valid()
      modifies this`outstanding, this`requests, this`starts
      ensures Valid() && (r.Err? <==> link == "")
      ensures r.Err? ==> r.error == UrlMissing && State() == old(State())
      ensures r.Ok? ==> r.value.id == old(|requests|)
      ensures r.Ok? ==> State() == Admit(old(State()), HttpRequest(POST, link, Some(payload), None, None))
    {
      r := Http(POST, link, Some(payload), None, None);
    }

    method Update(link: string, payload: JsonValue) returns (r: Result<Dispatched, string>)
      requires Valid()
      modifies this`outstanding, this`requests, this`starts
      ensures Valid() && (r.Err? <==> link == "")
      ensures r.Err? ==> r.error == UrlMissing && State() == old(State())
      ensures r.Ok? ==> r.value.id == old(|requests|)
      ensures r.Ok? ==> State() == Admit(old(State()), HttpRequest(PATCH, link, Some(payload), None, None))
    {
      r := Http(PATCH, link, Some(payload), None, None);
    }

    method Destroy(link: string) returns (r: Result<Dispatched, string>)
      requires Valid()
      modifies this`outstanding, this`requests, this`starts
      ensures Valid() && (r.Err? <==> link == "")
      ensures r.Err? ==> r.error == UrlMissing && State() == old(State())
      ensures r.Ok? ==> r.value.id == old(|requests|)
      ensures r.Ok? ==> State() == Admit(old(State()), HttpRequest(DELETE, link, None, None, None))
    {
      r := Http(DELETE, link, None, None, None);
    }

    /**
     * `request`: fills the missing method, headers and internal flag of the
     * options in place, then calls `_http` with all of them, so that an
     * external request carries exactly the headers it was given.
     */
    method Request(url: string, options: RequestOptions) returns (r: Result<Dispatched, string>)
      requires Valid()
      modifies this`outstanding, this`requests, this`starts, options
      ensures Valid()
      ensures options.verb == Some(old(options.verb).GetOr(GET))
      ensures options.headers == Some(old(options.headers).GetOr(map[]))
      ensures options.internal == Some(old(options.internal) == Some(true))
      ensures options.data == old(options.data)
      ensures r.Err? <==> url == ""
      ensures r.Err? ==> r.error == UrlMissing && State() == old(State())
      ensures r.Ok? ==> r.value.id == old(|requests|)
      ensures r.Ok? ==>
        State() == Admit(old(State()), HttpRequest(options.verb.value, url, options.data, options.headers, options.internal))
      ensures r.Ok? ==>
        r.value.started == Immediate(HttpRequest(options.verb.value, url, options.data, options.headers, options.internal))
    {
      options.verb := Some(options.verb.GetOr(GET));
      options.headers := Some(options.headers.GetOr(map[]));
      options.internal := Some(options.internal == Some(true));
      r := Http(options.verb.value, url, options.data, options.headers, options.internal);
    }
  }
}
