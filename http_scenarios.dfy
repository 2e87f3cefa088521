/**
 * The HTTP client's test cases replayed as sequences of events on a fresh
 * client: what `_http` receives from `request`, and which transport calls the
 * serialization gate lets through.
 */
module HttpClientScenarios {
  import opened Wrappers
  import opened Json
  import opened HttpTypes
  import opened AxiosBinding
  import opened RequestGate
  import opened JsonApiHttpClient

  const UserPath: string := "api/user/42/"
  const OfferPath: string := "api/offer/9000/"

  /** The canonical links without a prefix. */
  method CanonicalLinks() returns (plain: seq<string>)
    ensures plain == ["/foo/2/", "/4/2/", "/foo/0/", "/foo/", "/4/"]
  {
    ResourcePathExamples();
    var c := new HttpClient(None);
    assert c.urlPrefix.GetOr("") == "";
    var u1 := c.BuildUrl("foo", Some("2"));
    var u2 := c.BuildUrl("4", Some("2"));
    var u3 := c.BuildUrl("foo", Some("0"));
    var u4 := c.BuildUrl("foo", None);
    var u5 := c.BuildUrl("4", None);
    assert u1 == "/foo/2/" && u2 == "/4/2/" && u3 == "/foo/0/" && u4 == "/foo/" && u5 == "/4/";
    plain := [u1, u2, u3, u4, u5];
  }

  /** The canonical links under the prefix "/api". */
  method PrefixedLinks() returns (prefixed: seq<string>)
    ensures prefixed == ["/api/foo/2/", "/api/foo/"]
  {
    ResourcePathExamples();
    var d := new HttpClient(Some(HttpClientOptions(Some("/api"), None, None)));
    var v1 := d.BuildUrl("foo", Some("2"));
    var v2 := d.BuildUrl("foo", None);
    assert d.urlPrefix.GetOr("") == "/api";
    assert v1 == "/api" + "/foo/2/" && v2 == "/api" + "/foo/";
    assert "/api" + "/foo/2/" == "/api/foo/2/" && "/api" + "/foo/" == "/api/foo/";
    prefixed := [v1, v2];
  }

  /** `request` with no options sends a GET with no data, no headers and `isInternal` false. */
  method RequestDefaults() returns (sent: Request, config: Option<AxiosConfig>)
    ensures sent == Request("test-url", GET, map[], None, false)
    ensures config == Some(AxiosConfig("test-url", GET, map[], Params(None)))
  {
    var c := new HttpClient(None);
    var o := new RequestOptions(None, None, None, None);
    var r := c.Request("test-url", o);
    sent := c.requests[0].request;
    config := r.value.started;
  }

  /** `request` passes the method, headers and data it is given. */
  method RequestFields() returns (sent: Request)
    ensures sent == Request("test-url", POST, map["header-1" := "one"], Some(Obj([("header-1", Str("one"))])), false)
  {
    var c := new HttpClient(None);
    var o := new RequestOptions(Some(POST), Some(map["header-1" := "one"]), None, Some(Obj([("header-1", Str("one"))])));
    var r := c.Request("test-url", o);
    sent := c.requests[0].request;
  }

  /** With the flag on, of two parallel requests only the first reaches the transport while it is pending. */
  method ParallelSerialized() returns (log: seq<nat>, second: Option<AxiosConfig>)
    ensures log == [0] && second.None?
  {
    var c := new HttpClient(None);
    c.SetSerializeRequests(true);
    var a := c.Get(UserPath, None);
    var b := c.Get(OfferPath, None);
    var first := c.Start(0);
    second := c.Start(1);
    log := c.starts;
  }

  /** A request dispatched before the flag was switched on still holds back the next one. */
  method SerializedAfterFirst() returns (log: seq<nat>, second: Option<AxiosConfig>)
    ensures log == [0] && second.None?
  {
    var c := new HttpClient(None);
    var a := c.Get(UserPath, None);
    c.SetSerializeRequests(true);
    var b := c.Get(OfferPath, None);
    second := c.Start(1);
    log := c.starts;
  }

  function Fetch(url: string): Request {
    HttpRequest(GET, url, None, None, None)
  }

  /** The gate's side of the sequential test: two gated fetches, then two with the flag off again. */
  lemma SequentialTrace(payload: JsonValue, payload2: JsonValue)
    requires payload.Obj? && payload2.Obj?
    ensures var g0 := Admit(Admit(Initial().(serialize := true), Fetch(UserPath)), Fetch(OfferPath));
      var g1 := Begin(Begin(g0, 0), 1);
      var g2 := Finish(g1, 0, Response(200, Some(payload)));
      var g3 := Finish(Begin(g2, 1), 1, Response(200, Some(payload2)));
      var g4 := Admit(Admit(g3.(serialize := false), Fetch(UserPath)), Fetch(OfferPath));
      g1.starts == [0] && g2.requests[0].result == Some(Ok(payload)) &&
      g3.requests[1].result == Some(Ok(payload2)) &&
      g4.starts == [0, 1, 2, 3] && g4.outstanding == {2, 3}
  {
  }

  /**
   * Sequential requests with the flag on: the second starts once the first
   * has settled; then, with the flag off again, two new requests both start
   * before either settles.
   */
  method SequentialThenParallel(payload: JsonValue, payload2: JsonValue)
    returns (before: seq<nat>, after: seq<nat>, firstResult: Result<JsonValue, string>, secondResult: Result<JsonValue, string>, running: set<nat>)
    requires payload.Obj? && payload2.Obj?
    ensures before == [0] && after == [0, 1, 2, 3]
    ensures firstResult == Ok(payload) && secondResult == Ok(payload2)
    ensures running == {2, 3}
  {
    SequentialTrace(payload, payload2);
    var c := new HttpClient(None);
    c.SetSerializeRequests(true);
    var a := c.Get(UserPath, None);
    var b := c.Get(OfferPath, None);
    ghost var g0 := c.State();
    assert g0 == Admit(Admit(Initial().(serialize := true), Fetch(UserPath)), Fetch(OfferPath));
    var s0 := c.Start(0);
    var s1 := c.Start(1);
    ghost var g1 := c.State();
    assert g1 == Begin(Begin(g0, 0), 1);
    before := c.starts;
    firstResult := c.Settle(0, Response(200, Some(payload)));
    ghost var g2 := c.State();
    s1 := c.Start(1);
    secondResult := c.Settle(1, Response(200, Some(payload2)));
    ghost var g3 := c.State();
    assert g3 == Finish(Begin(g2, 1), 1, Response(200, Some(payload2)));
    c.SetSerializeRequests(false);
    var x := c.Get(UserPath, None);
    var y := c.Get(OfferPath, None);
    assert c.State() == Admit(Admit(g3.(serialize := false), Fetch(UserPath)), Fetch(OfferPath));
    after := c.starts;
    running := c.outstanding;
  }

  lemma FailureTrace(message: string)
    ensures var g0 := Admit(Admit(Initial().(serialize := true), Fetch(UserPath)), Fetch(OfferPath));
      |g0.requests| == 2 && 0 in Begin(g0, 0).outstanding && Begin(g0, 0).requests[0].started &&
      var g1 := Finish(Begin(g0, 0), 0, Failure(message));
      |g1.requests| == 2 && 1 in Begin(g1, 1).outstanding && Begin(g1, 1).requests[1].started &&
      var g2 := Finish(Begin(g1, 1), 1, Response(204, None));
      g1.requests[0].result == Some(Err(FailureMessage(UserPath, message))) &&
      g2.starts == [0, 1] && g2.requests[1].result == Some(Ok(Obj([])))
  {
  }

  /** A failed predecessor does not hold back its gated successor, and each caller gets its own result. */
  method FailureSwallowed(message: string) returns (log: seq<nat>, firstResult: Result<JsonValue, string>, secondResult: Result<JsonValue, string>)
    ensures log == [0, 1]
    ensures firstResult == Err(FailureMessage(UserPath, message))
    ensures secondResult == Ok(Obj([]))
  {
    FailureTrace(message);
    var c := new HttpClient(None);
    c.SetSerializeRequests(true);
    var a := c.Get(UserPath, None);
    var b := c.Get(OfferPath, None);
    ghost var g0 := c.State();
    assert g0 == Admit(Admit(Initial().(serialize := true), Fetch(UserPath)), Fetch(OfferPath));
    var s0 := c.Start(0);
    assert c.State() == Begin(g0, 0);
    firstResult := c.Settle(0, Failure(message));
    ghost var g1 := c.State();
    assert g1 == Finish(Begin(g0, 0), 0, Failure(message));
    var s1 := c.Start(1);
    assert c.State() == Begin(g1, 1);
    secondResult := c.Settle(1, Response(204, None));
    assert c.State() == Finish(Begin(g1, 1), 1, Response(204, None));
    log := c.starts;
  }
}
