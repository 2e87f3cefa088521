/**
 * The façade's test cases replayed on a fresh HTTP client without a prefix:
 * which request each method hands to the gate, the transport's answer
 * settled as the test's mock gives it, and what the façade resolves with.
 */
module JsonApiClientScenarios {
  import opened Wrappers
  import opened Json
  import opened HttpTypes
  import opened AxiosBinding
  import opened RequestGate
  import opened JsonApiHttpClient
  import opened JsonApiClient
  import opened JsonApiParser
  import opened JsonApiParserProperties
  import opened JsonApiParserExamples
  import KeyCase

  const DogLink: string := "/api/dog/17/"

  method Fresh() returns (c: JsonApiClient)
    ensures fresh(c) && fresh(c.http) && c.http.Valid() && c.http.State() == Initial()
    ensures c.http.urlPrefix == Some("") && !c.http.serializeRequests
  {
    var http := new HttpClient(None);
    c := new JsonApiClient(http);
  }

  /** The transport answers with an object body, and the binding hands the body on untouched. */
  lemma OkBody(url: string, status: int, body: Entries)
    ensures Normalise(url, Response(status, Some(Obj(body)))) == Ok(Obj(body))
  {
  }

  /** A body holding only `data` parses to `{data}` with the data parsed, and `get` answers with that. */
  lemma ReadsData(data: JsonValue)
    ensures ParseRawResponse(Obj([("data", data)])) == Ok(Obj([("data", ParsedMember(Some(data)))]))
    ensures Complete(GetOp, Ok(Obj([("data", data)]))) == Ok(Some(Obj([("data", ParsedMember(Some(data)))])))
  {
    assert IncludedOf(Obj([("data", data)])) == None;
  }

  /** A body with `data` and an `included` array parses both, the included resources one by one. */
  lemma ReadsDataAndIncluded(data: JsonValue, included: seq<JsonValue>)
    ensures Complete(GetOp, Ok(Obj([("data", data), ("included", Arr(included))]))) ==
      Ok(Some(Obj([("data", ParsedMember(Some(data))), ("included", Arr(ParseEach(included)))])))
  {
    var es := [("data", data), ("included", Arr(included))];
    GetCons(es[0], es[1..], "data");
    GetCons(es[0], es[1..], "included");
    assert es == [es[0]] + es[1..];
  }

  /** `get("dog", "17")` fetches "/dog/17/" and answers with the document, its resource parsed. */
  method GetDog(dog: JsonValue) returns (sent: Request, answer: Result<Option<JsonValue>, string>)
    ensures sent == HttpRequest(GET, "/dog/17/", None, None, None)
    ensures !dog.Arr? ==> answer == Ok(Some(Obj([("data", Parse(dog))])))
  {
    var c := Fresh();
    assert c.http.BuildUrl("dog", Some("17")) == "" + "/dog/17/";
    var d := c.Get("dog", Some("17"), None, None);
    sent := c.http.requests[0].request;
    var body := [("data", dog)];
    OkBody(sent.url, 200, body);
    ReadsData(dog);
    var raw := c.http.Settle(0, Response(200, Some(Obj(body))));
    assert raw == Ok(Obj(body));
    answer := Complete(GetOp, raw);
  }

  /** With a query, `get("dog", "17")` also parses the `included` resources. */
  method GetDogWithLegs(query: JsonValue, dog: JsonValue, legs: seq<JsonValue>)
    returns (sent: Request, answer: Result<Option<JsonValue>, string>)
    ensures sent == HttpRequest(GET, "/dog/17/", Some(query), None, None)
    ensures !dog.Arr? ==> answer == Ok(Some(Obj([("data", Parse(dog)), ("included", Arr(ParseEach(legs)))])))
  {
    var c := Fresh();
    assert c.http.BuildUrl("dog", Some("17")) == "" + "/dog/17/";
    var d := c.Get("dog", Some("17"), None, Some(query));
    sent := c.http.requests[0].request;
    var body := [("data", dog), ("included", Arr(legs))];
    OkBody(sent.url, 200, body);
    ReadsDataAndIncluded(dog, legs);
    var raw := c.http.Settle(0, Response(200, Some(Obj(body))));
    assert raw == Ok(Obj(body));
    answer := Complete(GetOp, raw);
  }

  /** `get("legs", null, {query})` fetches "/legs/"; an array of resources is parsed element by element. */
  method GetLegsWithDog(query: JsonValue, legs: seq<JsonValue>, dog: JsonValue)
    returns (sent: Request, answer: Result<Option<JsonValue>, string>)
    ensures sent == HttpRequest(GET, "/legs/", Some(query), None, None)
    ensures answer == Ok(Some(Obj([("data", Arr(ParseEach(legs))), ("included", Arr([Parse(dog)]))])))
  {
    var c := Fresh();
    assert c.http.BuildUrl("legs", None) == "" + "/legs/";
    var d := c.Get("legs", None, None, Some(query));
    sent := c.http.requests[0].request;
    var body := [("data", Arr(legs)), ("included", Arr([dog]))];
    OkBody(sent.url, 200, body);
    ReadsDataAndIncluded(Arr(legs), [dog]);
    assert ParseEach([dog]) == [Parse(dog)];
    var raw := c.http.Settle(0, Response(200, Some(Obj(body))));
    assert raw == Ok(Obj(body));
    answer := Complete(GetOp, raw);
  }

  /** A link wins over the type and id given beside it; the answer is read as for any other `get`. */
  method GetByLink(query: JsonValue, dog: JsonValue, legs: seq<JsonValue>)
    returns (sent: Request, answer: Result<Option<JsonValue>, string>)
    ensures sent == HttpRequest(GET, DogLink, Some(query), None, None)
    ensures !dog.Arr? ==> answer == Ok(Some(Obj([("data", Parse(dog)), ("included", Arr(ParseEach(legs)))])))
  {
    var c := Fresh();
    var d := c.Get("cat", Some("arbitrary"), Some(DogLink), Some(query));
    sent := c.http.requests[0].request;
    var body := [("data", dog), ("included", Arr(legs))];
    OkBody(sent.url, 200, body);
    ReadsDataAndIncluded(dog, legs);
    var raw := c.http.Settle(0, Response(200, Some(Obj(body))));
    assert raw == Ok(Obj(body));
    answer := Complete(GetOp, raw);
  }

  /** The dog's `links` member: its own link under `self`. */
  function SelfLinks(): JsonValue {
    Obj([("self", Str(DogLink))])
  }

  /** The dog's `owner` relationship, as the test writes it. */
  function OwnerRelationship(): JsonValue {
    Obj([("data", Obj([("id", Str("5")), ("type", Str("owner"))])),
         ("links", Obj([("related", Str("/api/dog/12/own/")), ("self", Str("/api/dog/12/relationships/own/"))]))])
  }

  /** The test's dog, member by member in the test's order, its attributes left open. */
  function Dog(attributes: JsonValue): JsonValue {
    Obj([("id", Str("17")), ("type", Str("dog")), ("attributes", attributes),
         ("links", SelfLinks()), ("relationships", Obj([("owner", OwnerRelationship())]))])
  }

  /** The dog's type and id, as `create` reads them, name the path "/dog/17/". */
  lemma DogMembers(attributes: JsonValue)
    ensures ResourceType(Dog(attributes)) == "dog" && ResourceId(Dog(attributes)) == Some("17")
    ensures ResourcePath(ResourceType(Dog(attributes)), ResourceId(Dog(attributes))) == "/dog/17/"
  {
    var es := Dog(attributes).entries;
    var id, kind := ("id", Str("17")), ("type", Str("dog"));
    assert es == [id] + ([kind] + es[2..]);
    assert "type" != "id";
    GetCons(id, [kind] + es[2..], "id");
    GetCons(id, [kind] + es[2..], "type");
    GetCons(kind, es[2..], "type");
  }

  /** The owner relationship is plain data: each of its objects has distinct member names. */
  lemma OwnerPlain()
    ensures Plain(OwnerRelationship())
  {
    var es := OwnerRelationship().entries;
    assert DistinctKeys(es) by {
      assert es[0].0 == "data" && es[1].0 == "links";
    }
    var data, links := es[0].1, es[1].1;
    assert DistinctKeys(data.entries) by {
      assert data.entries[0].0 == "id" && data.entries[1].0 == "type";
    }
    assert DistinctKeys(links.entries) by {
      assert links.entries[0].0 == "related" && links.entries[1].0 == "self";
    }
    assert Plain(data) && Plain(links);
  }

  /** The dog's five member names are distinct, and so are those of every object inside it. */
  lemma DogPlain(attributes: JsonValue)
    requires Plain(attributes)
    ensures Plain(Dog(attributes))
  {
    OwnerPlain();
    var es := Dog(attributes).entries;
    assert DistinctKeys(es) by {
      assert es[0].0 == "id" && es[1].0 == "type" && es[2].0 == "attributes";
      assert es[3].0 == "links" && es[4].0 == "relationships";
    }
    assert Plain(SelfLinks());
    assert Plain(Obj([("owner", OwnerRelationship())]));
  }

  /** Plain data whose member names are all in camel form, as the façade's callers write resources. */
  predicate CamelData(v: JsonValue) {
    Plain(v) && KeysOk(KeyCase.IsCamel, v)
  }

  lemma OwnerWords()
    ensures KeyCase.LowerWord("owner") && KeyCase.LowerWord("related")
  {
  }

  /** The dog's short member names are already in camel form. */
  lemma ShortNamesCamel()
    ensures KeyCase.IsCamel("id") && KeyCase.IsCamel("type") && KeyCase.IsCamel("links")
    ensures KeyCase.IsCamel("data") && KeyCase.IsCamel("self")
  {
    ShortWords();
    KeyCase.SingleWordForms("id");
    KeyCase.SingleWordForms("type");
    KeyCase.SingleWordForms("links");
    KeyCase.SingleWordForms("data");
    KeyCase.SingleWordForms("self");
  }

  /** So are its long ones and the owner relationship's own names. */
  lemma OtherNamesCamel()
    ensures KeyCase.IsCamel("attributes") && KeyCase.IsCamel("relationships")
    ensures KeyCase.IsCamel("owner") && KeyCase.IsCamel("related")
  {
    LongWords();
    OwnerWords();
    KeyCase.SingleWordForms("attributes");
    KeyCase.SingleWordForms("relationships");
    KeyCase.SingleWordForms("owner");
    KeyCase.SingleWordForms("related");
  }

  /** The owner relationship passes a name check that its six names pass. */
  lemma OwnerKeysOk(p: string -> bool)
    requires p("data") && p("links") && p("id") && p("type") && p("related") && p("self")
    ensures KeysOk(p, OwnerRelationship())
  {
    var es := OwnerRelationship().entries;
    assert KeysOk(p, es[0].1) && KeysOk(p, es[1].1);
  }

  /** The dog passes a name check whenever its own names and its attributes' names do. */
  lemma DogKeysOk(p: string -> bool, attributes: JsonValue)
    requires p("id") && p("type") && p("attributes") && p("links") && p("relationships")
    requires p("self") && p("owner") && p("data") && p("related")
    requires KeysOk(p, attributes)
    ensures KeysOk(p, Dog(attributes))
  {
    OwnerKeysOk(p);
    assert KeysOk(p, SelfLinks());
    assert KeysOk(p, Obj([("owner", OwnerRelationship())]));
  }

  /** The dog with plain camel-case attributes is itself a plain camel-case document. */
  lemma CamelDog(attributes: JsonValue)
    requires CamelData(attributes)
    ensures CamelData(Dog(attributes))
  {
    DogPlain(attributes);
    ShortNamesCamel();
    OtherNamesCamel();
    DogKeysOk(KeyCase.IsCamel, attributes);
  }

  /**
   * A write answered with `{data: serialize(x)}` resolves with `x` parsed,
   * which is `x` itself when `x` is a plain camel-case object.
   */
  lemma ReadsWritten(op: Operation, x: JsonValue)
    requires op == CreateOp || op == UpdateOp
    ensures Complete(op, Ok(Envelope(x))) == Ok(Some(Parse(Serialize(x))))
    ensures x.Obj? && CamelData(x) ==> Complete(op, Ok(Envelope(x))) == Ok(Some(x))
  {
    ReadsData(Serialize(x));
    if x.Obj? && CamelData(x) {
      ParseSerializeRoundTrip(x);
    }
  }

  /**
   * `create` POSTs the serialized resource to the URL built from its type and
   * id (the test's dog goes to "/dog/17/"); when the server echoes the body
   * back with 201, the answer is the resource again, in camel form.
   */
  method CreateEchoed(resource: JsonValue) returns (sent: Request, answer: Result<Option<JsonValue>, string>)
    requires resource != Null
    ensures sent == HttpRequest(POST, ResourcePath(ResourceType(resource), ResourceId(resource)), Some(Envelope(resource)), None, None)
    ensures answer == Ok(Some(Parse(Serialize(resource))))
    ensures resource.Obj? && CamelData(resource) ==> answer == Ok(Some(resource))
  {
    ReadsWritten(CreateOp, resource);
    var c := Fresh();
    var d := c.Create(resource);
    sent := c.http.requests[0].request;
    OkBody(sent.url, 201, Envelope(resource).entries);
    var raw := c.http.Settle(0, Response(201, sent.data));
    assert raw == Ok(Envelope(resource));
    answer := Complete(CreateOp, raw);
  }

  /** The update of a resource's attributes, addressed by the dog's link. */
  function DogUpdate(attributes: JsonValue): JsonValue {
    Obj([("links", SelfLinks()), ("attributes", attributes)])
  }

  /**
   * `update` PATCHes the serialized partial resource to its `links.self`; the
   * server's 200 with the whole resource in kebab form resolves with the
   * resource in camel form.
   */
  method UpdateByLink(attributes: JsonValue, resource: JsonValue)
    returns (sent: Request, answer: Result<Option<JsonValue>, string>)
    ensures sent == HttpRequest(PATCH, DogLink, Some(Envelope(DogUpdate(attributes))), None, None)
    ensures answer == Ok(Some(Parse(Serialize(resource))))
    ensures resource.Obj? && CamelData(resource) ==> answer == Ok(Some(resource))
  {
    ReadsWritten(UpdateOp, resource);
    var partial := DogUpdate(attributes);
    var links := SelfLinks();
    assert Member(Some(partial), "links") == Some(links);
    LinkOfSelf(partial, links, DogLink);
    var c := Fresh();
    var r := c.Update(partial);
    sent := c.http.requests[0].request;
    OkBody(sent.url, 200, Envelope(resource).entries);
    var raw := c.http.Settle(0, Response(200, Some(Envelope(resource))));
    assert raw == Ok(Envelope(resource));
    answer := Complete(UpdateOp, raw);
  }

  /** `update` of a resource without links is refused before anything is sent. */
  method UpdateWithoutLink(attributes: JsonValue) returns (r: Result<Dispatched, string>, sent: nat)
    ensures r == Err(NoLinkForUpdate) && sent == 0
  {
    var c := Fresh();
    r := c.Update(Obj([("attributes", attributes)]));
    sent := |c.http.requests|;
  }

  /** `delete` sends DELETE to `links.self`, and a 204 without a body resolves with nothing. */
  method DeleteByLink() returns (sent: Request, answer: Result<Option<JsonValue>, string>)
    ensures sent == HttpRequest(DELETE, DogLink, None, None, None)
    ensures answer == Ok(None)
  {
    var links := Obj([("self", Str(DogLink))]);
    var dog := Obj([("links", links)]);
    LinkOfSelf(dog, links, DogLink);
    var c := Fresh();
    var r := c.Delete(dog);
    sent := c.http.requests[0].request;
    var raw := c.http.Settle(0, Response(204, None));
    answer := Complete(DeleteOp, raw);
  }

  /** `delete` of an empty object is refused before anything is sent. */
  method DeleteWithoutLink() returns (r: Result<Dispatched, string>, sent: nat)
    ensures r == Err(NoLinkForDelete) && sent == 0
  {
    var c := Fresh();
    r := c.Delete(Obj([]));
    sent := |c.http.requests|;
  }
}
