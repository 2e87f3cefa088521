/**
 * The JSON:API client façade. It serializes resources before they are sent,
 * picks the URL each operation goes to, and parses what comes back: every
 * resource of `data` and of `included` has its member names camel-cased.
 *
 * The façade's methods are asynchronous in the source. Each is modelled in
 * two halves: the method dispatches a request through the HTTP client, and
 * `Complete` turns the settled result of that request into what the
 * method's promise resolves or rejects with.
 */
module JsonApiClient {
  import opened Wrappers
  import opened Json
  import opened HttpTypes
  import opened AxiosBinding
  import opened RequestGate
  import opened JsonApiHttpClient
  import opened JsonApiParser
  import opened JsonApiParserProperties
  import KeyCase

  /** The TypeError `included.map(...)` raises when `included` is truthy but not an array. */
  const IncludedNotArray: string := "included.map is not a function"
  const NoLinkForUpdate: string := "No link was provided for updating resource"
  const NoLinkForDelete: string := "No link was provided for deleting resource"

  function ParseEach(xs: seq<JsonValue>): (ys: seq<JsonValue>) {
    seq(|xs|, i requires 0 <= i < |xs| => Parse(xs[i]))
  }

  /**
   * `out` is what the façade makes of the member `raw`: an array is parsed
   * element by element, in order; anything else, a missing member included,
   * is parsed as one resource. It is the per-element reading of
   * `ParsedMember`: it says what each position of the answer holds rather
   * than how the answer is built, and it is what the lemmas below use.
   */
  ghost predicate ParsedFrom(raw: Option<JsonValue>, out: JsonValue) {
    if raw.Some? && raw.value.Arr? then
      out.Arr? && |out.items| == |raw.value.items| &&
      forall i :: 0 <= i < |out.items| ==> out.items[i] == Parse(raw.value.items[i])
    else
      out == Parse(raw.GetOr(Null))
  }

  /** The `map(parse)` or `parse` the façade applies to `data` and to `included`. */
  function ParsedMember(raw: Option<JsonValue>): (out: JsonValue)
    ensures ParsedFrom(raw, out)
  {
    if raw.Some? && raw.value.Arr? then Arr(ParseEach(raw.value.items)) else Parse(raw.GetOr(Null))
  }

  function IncludedOf(response: JsonValue): Option<JsonValue> {
    Member(Some(response), "included")
  }

  /**
   * `_parseRawResponse`. The result has `data` and, when the response's
   * `included` is truthy, `included`, and nothing else; a truthy `included`
   * that is not an array makes the `map` call throw.
   */
  function ParseRawResponse(response: JsonValue): (r: Result<JsonValue, string>)
    requires response != Null
    ensures r.Err? <==> Truthy(IncludedOf(response)) && !IncludedOf(response).value.Arr?
    ensures r.Err? ==> r.error == IncludedNotArray
    ensures r.Ok? ==> r.value.Obj? && DistinctKeys(r.value.entries)
    ensures r.Ok? ==>
      Keys(r.value.entries) == ["data"] + (if Truthy(IncludedOf(response)) then ["included"] else [])
    ensures r.Ok? ==>
      var d := Get(r.value.entries, "data");
      d.Some? && ParsedFrom(Member(Some(response), "data"), d.value)
    ensures r.Ok? && Truthy(IncludedOf(response)) ==>
      var inc := Get(r.value.entries, "included");
      inc.Some? && ParsedFrom(IncludedOf(response), inc.value)
  {
    var data := ParsedMember(Member(Some(response), "data"));
    var included := IncludedOf(response);
    if !Truthy(included) then
      Ok(Obj([("data", data)]))
    else if included.value.Arr? then
      Ok(Obj([("data", data), ("included", ParsedMember(included))]))
    else
      Err(IncludedNotArray)
  }

  /** Only `data` and `included` are read: two responses that agree on them give the same result. */
  lemma ParseRawResponseReadsDataAndIncluded(a: JsonValue, b: JsonValue)
    requires a != Null && b != Null
    requires Member(Some(a), "data") == Member(Some(b), "data")
    requires IncludedOf(a) == IncludedOf(b)
    ensures ParseRawResponse(a) == ParseRawResponse(b)
  {
  }

  /** The resources of a parsed member, one or many. */
  function Resources(out: JsonValue): seq<JsonValue> {
    if out.Arr? then out.items else [out]
  }

  lemma ParsedFromKeys(raw: Option<JsonValue>, out: JsonValue)
    requires ParsedFrom(raw, out)
    ensures forall x :: x in Resources(out) ==> x.Obj? && KeysOk(KeyCase.HasNoSeparator, x)
  {
    forall x | x in Resources(out) ensures x.Obj? && KeysOk(KeyCase.HasNoSeparator, x) {
      if raw.Some? && raw.value.Arr? {
        var i :| 0 <= i < |out.items| && out.items[i] == x;
        ParsedKeysHaveNoSeparator(raw.value.items[i]);
      } else {
        ParsedKeysHaveNoSeparator(raw.GetOr(Null));
      }
    }
  }

  /** Every resource the façade hands back, in `data` or in `included`, is an object with no separator left in any member name. */
  lemma ParsedResponseIsCamelCased(response: JsonValue)
    requires response != Null && ParseRawResponse(response).Ok?
    ensures var es := ParseRawResponse(response).value.entries;
      forall i :: 0 <= i < |es| ==>
        forall x :: x in Resources(es[i].1) ==> x.Obj? && KeysOk(KeyCase.HasNoSeparator, x)
  {
    var es := ParseRawResponse(response).value.entries;
    ParsedFromKeys(Member(Some(response), "data"), es[0].1);
    if |es| > 1 {
      ParsedFromKeys(IncludedOf(response), es[1].1);
    }
  }

  /**
   * A single resource in kebab form comes back from the round trip through
   * the façade: serializing the parsed `data` gives the original document.
   */
  lemma ParsedDataSerializesBack(response: JsonValue, resource: JsonValue)
    requires response != Null && Member(Some(response), "data") == Some(resource)
    requires resource.Obj? && Plain(resource) && KeysOk(KeyCase.IsKebab, resource)
    requires !Truthy(IncludedOf(response)) || IncludedOf(response).value.Arr?
    ensures var d := Get(ParseRawResponse(response).value.entries, "data");
      d.Some? && Serialize(d.value) == resource
  {
    SerializeParseRoundTrip(resource);
  }

  /** `resource?.links?.self || null`, as the URL the request goes to; None when the link is falsy. */
  function LinkOf(resource: JsonValue): (link: Option<string>)
    ensures link.Some? <==> Truthy(Member(Member(Some(resource), "links"), "self"))
  {
    var self := Member(Member(Some(resource), "links"), "self");
    if Truthy(self) then Some(TemplateText(self.value)) else None
  }

  /** A non-empty string under `links.self` is the link, as it is. */
  lemma LinkOfSelf(resource: JsonValue, links: JsonValue, s: string)
    requires Member(Some(resource), "links") == Some(links) && Member(Some(links), "self") == Some(Str(s))
    requires s != ""
    ensures LinkOf(resource) == Some(s)
  {
  }

  /** A resource with no `links` object, or whose `self` is missing, null, false, 0 or "", has no link. */
  lemma NoLinkWithoutSelf(resource: JsonValue)
    requires var links := Member(Some(resource), "links");
      links.None? || !links.value.Obj? || Member(links, "self") in {None, Some(Null), Some(Bool(false)), Some(Num(0)), Some(Str(""))}
    ensures LinkOf(resource).None?
  {
  }

  /** `resource.id` as `buildUrl` uses it: absent when null or undefined, its template text otherwise. */
  function ResourceId(resource: JsonValue): (id: Option<string>)
    ensures id.None? <==> Member(Some(resource), "id") in {None, Some(Null)}
    ensures var m := Member(Some(resource), "id"); m.Some? && m.value.Str? ==> id == Some(m.value.s)
  {
    var m := Member(Some(resource), "id");
    if m.None? || m.value.Null? then None else Some(TemplateText(m.value))
  }

  /** `resource.type` as `buildUrl` uses it. */
  function ResourceType(resource: JsonValue): (kind: string)
    ensures var m := Member(Some(resource), "type"); m.Some? && m.value.Str? ==> kind == m.value.s
    ensures Member(Some(resource), "type").None? ==> kind == "undefined"
  {
    OptionalText(Member(Some(resource), "type"))
  }

  /** The body `create` and `update` send: the serialized resource under `data`. */
  function Envelope(resource: JsonValue): (body: JsonValue)
    ensures body.Obj? && Keys(body.entries) == ["data"]
    ensures Get(body.entries, "data") == Some(Serialize(resource))
  {
    Obj([("data", Serialize(resource))])
  }

  datatype Operation = GetOp | CreateOp | UpdateOp | DeleteOp

  /**
   * What a façade method's promise settles with once its request has
   * settled: `get` resolves with the parsed response, `create` and `update`
   * with its parsed `data`, `delete` with nothing. Rejections pass through.
   */
  function Complete(op: Operation, raw: Result<JsonValue, string>): (r: Result<Option<JsonValue>, string>)
    requires raw.Ok? ==> raw.value != Null
    ensures raw.Err? ==> r == Err(raw.error)
    ensures op == DeleteOp ==> (r.Ok? <==> raw.Ok?) && (r.Ok? ==> r.value.None?)
    ensures op != DeleteOp && raw.Ok? ==>
      (r.Err? <==> ParseRawResponse(raw.value).Err?) && (r.Err? ==> r.error == IncludedNotArray)
    ensures op == GetOp && r.Ok? ==> raw.Ok? && r.value == Some(ParseRawResponse(raw.value).value)
    ensures (op == CreateOp || op == UpdateOp) && r.Ok? ==>
      raw.Ok? && r.value.Some? && ParsedFrom(Member(Some(raw.value), "data"), r.value.value)
  {
    if raw.Err? then Err(raw.error)
    else if op == DeleteOp then Ok(None)
    else
      var parsed := ParseRawResponse(raw.value);
      if parsed.Err? then Err(parsed.error)
      else if op == GetOp then Ok(Some(parsed.value))
      else Ok(Get(parsed.value.entries, "data"))
  }

  /**
   * From the transport's report to the façade's answer: a failure comes back
   * wrapped with the URL, an empty 200 is refused, and anything else is parsed.
   */
  lemma CompleteOfOutcome(op: Operation, url: string, outcome: TransportOutcome)
    ensures var raw := Normalise(url, outcome);
      (raw.Ok? ==> raw.value != Null) &&
      (outcome.Failure? ==> Complete(op, raw) == Err(FailureMessage(url, outcome.message))) &&
      (EmptySuccess(outcome) ==> Complete(op, raw) == Err(FailureMessage(url, NoDataMessage))) &&
      (op == DeleteOp ==> (Complete(op, raw).Ok? <==> outcome.Response? && !EmptySuccess(outcome)))
  {
  }

  /** The request number a settled gate reports the façade's answer for, and that answer. */
  lemma CompleteAfterFinish(op: Operation, g: Gate, id: nat, outcome: TransportOutcome)
    requires Inv(g) && id in g.outstanding && g.requests[id].started
    ensures var h := Finish(g, id, outcome);
      var raw := h.requests[id].result.value;
      Settled(h, id) && (raw.Ok? ==> raw.value != Null) &&
      Complete(op, raw) == Complete(op, Normalise(g.requests[id].request.url, outcome))
  {
    FinishEffect(g, id, outcome);
    FinishInv(g, id, outcome);
  }

  class JsonApiClient {
    const http: HttpClient

    constructor(http: HttpClient)
      ensures this.http == http
    {
      this.http := http;
    }

    /** `get`: a non-empty link wins over the URL built from the type and id; the URL guard never refuses it. */
    method Get(kind: string, id: Option<string>, link: Option<string>, query: Option<JsonValue>) returns (d: Dispatched)
      requires http.Valid()
      modifies http`outstanding, http`requests, http`starts
      ensures http.Valid() && d.id == old(|http.requests|)
      ensures link.Some? && link.value != "" ==>
        http.State() == Admit(old(http.State()), HttpRequest(GET, link.value, query, None, None))
      ensures !(link.Some? && link.value != "") ==>
        http.State() == Admit(old(http.State()), HttpRequest(GET, http.BuildUrl(kind, id), query, None, None))
    {
      var url := if link.Some? && link.value != "" then link.value else http.BuildUrl(kind, id);
      BuildUrlParts(http, kind, id);
      assert url != "";
      var r := http.Get(url, query);
      d := r.value;
    }

    /** `create`: POSTs the serialized resource to the URL built from its own type and id. */
    method Create(resource: JsonValue) returns (d: Dispatched)
      requires http.Valid() && resource != Null
      modifies http`outstanding, http`requests, http`starts
      ensures http.Valid() && d.id == old(|http.requests|)
      ensures http.State() ==
        Admit(old(http.State()),
              HttpRequest(POST, http.BuildUrl(ResourceType(resource), ResourceId(resource)), Some(Envelope(resource)), None, None))
    {
      var url := http.BuildUrl(ResourceType(resource), ResourceId(resource));
      BuildUrlParts(http, ResourceType(resource), ResourceId(resource));
      var r := http.Create(url, Envelope(resource));
      d := r.value;
    }

    /** `update`: PATCHes the serialized resource to its own link, and refuses a resource without one. */
    method Update(resource: JsonValue) returns (r: Result<Dispatched, string>)
      requires http.Valid()
      modifies http`outstanding, http`requests, http`starts
      ensures http.Valid()
      ensures LinkOf(resource).None? ==> r == Err(NoLinkForUpdate) && http.State() == old(http.State())
      ensures LinkOf(resource).Some? ==> (r.Err? <==> LinkOf(resource).value == "")
      ensures LinkOf(resource).Some? && r.Err? ==> r.error == UrlMissing && http.State() == old(http.State())
      ensures r.Ok? ==> LinkOf(resource).Some? && r.value.id == old(|http.requests|)
      ensures r.Ok? ==>
        http.State() == Admit(old(http.State()), HttpRequest(PATCH, LinkOf(resource).value, Some(Envelope(resource)), None, None))
    {
      var body := Envelope(resource);
      var link := LinkOf(resource);
      if link.None? {
        return Err(NoLinkForUpdate);
      }
      r := http.Update(link.value, body);
    }

    /** `delete`: sends DELETE to the resource's own link, and refuses a resource without one. */
    method Delete(resource: JsonValue) returns (r: Result<Dispatched, string>)
      requires http.Valid()
      modifies http`outstanding, http`requests, http`starts
      ensures http.Valid()
      ensures LinkOf(resource).None? ==> r == Err(NoLinkForDelete) && http.State() == old(http.State())
      ensures LinkOf(resource).Some? ==> (r.Err? <==> LinkOf(resource).value == "")
      ensures LinkOf(resource).Some? && r.Err? ==> r.error == UrlMissing && http.State() == old(http.State())
      ensures r.Ok? ==> LinkOf(resource).Some? && r.value.id == old(|http.requests|)
      ensures r.Ok? ==>
        http.State() == Admit(old(http.State()), HttpRequest(DELETE, LinkOf(resource).value, None, None, None))
    {
      var link := LinkOf(resource);
      if link.None? {
        return Err(NoLinkForDelete);
      }
      r := http.Destroy(link.value);
    }
  }
}
