# JSON-API-Tools, modelled in Dafny

JSON-API-Tools is a set of TypeScript packages for talking to a JSON:API
service:

- a **parser** rewrites every member name of a resource document, at every
  depth. `parse` camel-cases the names and `serialize` kebab-cases them.
- an **HTTP client** builds canonical resource URLs and fills in request
  defaults. Its serialization gate can hold each request back until every
  request outstanding at dispatch time has settled.
- an **Axios binding** guards against an empty URL, merges headers, sends
  GET data as query parameters, normalises responses and wraps failures.
- a **JSON:API client façade** serializes outgoing resources and parses
  incoming responses. It picks the URL each operation uses and refuses to
  update or delete a resource that has no link.

The model is split into these modules:

- `Json` (json.dfy): JSON values, with objects as name/value lists in
  insertion order. It also holds the JavaScript notions the code relies on:
  truthiness, property reads, template-literal text and array index keys.
- `KeyCase` (key_case.dfy): an ASCII model of lodash `camelCase` and
  `kebabCase`.
- `JsonApiParser` (parser.dfy): the walker.
  - `Walk`, `Value` and `Item` are its specification.
  - `SerializeData` and `MapItems` are the source's `for...in` loop and
    `map`, proved to compute them.
- `JsonApiParserProperties` and `JsonApiParserExamples`: what the walker
  guarantees, and the parser's test documents.
- `HttpTypes`, `AxiosBinding` (axios.dfy) and `RequestGate`
  (request_gate.dfy). The gate is a pure state machine: a request is
  admitted, started and finished, and the invariant `Inv` is kept by every
  step.
- `JsonApiHttpClient` (http_client.dfy): the class `HttpClient`. Its fields
  are the source's instance fields, and each of its methods is proved to
  perform one step of the gate.
- `JsonApiClient` (json_api_client.dfy): the façade class over an
  `HttpClient`, plus `ParseRawResponse` and `Complete`. `Complete` is what
  each asynchronous method's promise settles with once its request has
  settled.
- `HttpClientScenarios` and `JsonApiClientScenarios`: the test cases of the
  two client packages, replayed on fresh clients. Each façade scenario states
  the request sent and, where the test settles it, what the façade resolves
  with. The test's documents are symbolic arguments there, not its literals.

The network is not part of the model. A request's transport call is the
Axios configuration the gate hands back. With the serialize flag off, that
is `d.started` of the dispatch: the request starts when it is admitted.
With the flag on, it is the result of the gate event `Start`. The
transport's answer is a `TransportOutcome`: a status with optional data, or
a failure message. The caller supplies it to `Settle`.

## Model

| member | source | states |
|---|---|---|
| KeyCase.WordsContinue | packages/json-api-parser/src/index.ts:1 | the words a key splits into are non-empty and contain no separator and no upper-case letter |
| KeyCase.WordsOfKebabJoin | packages/json-api-parser/src/index.ts:10 | splitting words joined with hyphens gives back exactly those lower-case words |
| KeyCase.WordsOfCamelJoin | packages/json-api-parser/src/index.ts:6 | splitting words joined in camel form gives back exactly those lower-case words |
| KeyCase.KebabOfCamel | packages/json-api-parser/src/index.ts:5-11 | kebab-casing a camel-cased key gives the same as kebab-casing the key itself |
| KeyCase.CamelOfKebab | packages/json-api-parser/src/index.ts:5-11 | camel-casing a kebab-cased key gives the same as camel-casing the key itself |
| KeyCase.KebabCamelRoundTrip | packages/json-api-parser/src/index.ts:5-11 | a key in kebab form survives camel-then-kebab; a key in camel form survives kebab-then-camel |
| KeyCase.SingleWordFixed | packages/json-api-parser/src/index.ts:5-11 | a single lower-case word is left alone by both key functions |
| KeyCase.SingleWordForms | packages/json-api-parser/src/index.ts:5-11 | a single lower-case word is already in camel form and in kebab form |
| KeyCase.CamelCaseHasNoSeparator | packages/json-api-parser/src/index.ts:6 | a camel-cased key contains no hyphen, underscore or space |
| KeyCase.KebabCaseHasNoUpper | packages/json-api-parser/src/index.ts:10 | a kebab-cased key contains no upper-case letter |
| JsonApiParser.AssignKeys | packages/json-api-parser/src/index.ts:34 | assigning a member: a name already present keeps its place, a new name goes at the end |
| JsonApiParser.AssignGetSame | packages/json-api-parser/src/index.ts:34 | after `result[k] = v`, reading `result[k]` gives `v` |
| JsonApiParser.AssignGetOther | packages/json-api-parser/src/index.ts:34 | `result[k] = v` leaves every other member's value as it was |
| JsonApiParser.AssignDistinct | packages/json-api-parser/src/index.ts:34 | assigning keeps the result's member names distinct |
| JsonApiParser.WalkDistinct | packages/json-api-parser/src/index.ts:17-35 | after any number of loop iterations, the result object has distinct member names |
| JsonApiParser.Value | packages/json-api-parser/src/index.ts:21-31 | a stored value: scalars unchanged, arrays stay arrays of the same length, objects stay objects |
| JsonApiParser.Item | packages/json-api-parser/src/index.ts:24-28 | an array element never comes back as an array: arrays and objects both go through the walker |
| JsonApiParser.EntryValueOfRaw | packages/json-api-parser/src/index.ts:21-31 | the value stored for a member is the processed form of the value read from it |
| JsonApiParser.SerializeData | packages/json-api-parser/src/index.ts:13-38 | the `for...in` loop builds exactly the fold of `Assign` over all visited members |
| JsonApiParser.Iteration | packages/json-api-parser/src/index.ts:20-34 | one iteration of the loop extends the fold by exactly the member it visits |
| JsonApiParser.MemberValue | packages/json-api-parser/src/index.ts:21-31 | the value one iteration stores is the processed form of the member it reads |
| JsonApiParser.MapItems | packages/json-api-parser/src/index.ts:23-28 | the `map` over an array member gives the processed array |
| JsonApiParser.Parse | packages/json-api-parser/src/index.ts:5-7 | `parse` returns an object with distinct names; for an object it is the camel-case walk of that object |
| JsonApiParser.Serialize | packages/json-api-parser/src/index.ts:9-11 | `serialize` returns an object with distinct names; for an object it is the kebab-case walk of that object |
| JsonApiParserProperties.WalkKeys | packages/json-api-parser/src/index.ts:19-34 | the result's names are the renamed member names, each once, in order of first occurrence |
| JsonApiParserProperties.WalkGet | packages/json-api-parser/src/index.ts:33-34 | on a name collision the member visited last wins; a name nobody maps to is absent |
| JsonApiParserProperties.WalkEntry | packages/json-api-parser/src/index.ts:19-34 | every entry of the result is some visited member, renamed, with its processed value |
| JsonApiParserProperties.AssignNew | packages/json-api-parser/src/index.ts:34 | assigning a name not yet present appends it |
| JsonApiParserProperties.WalkRenames | packages/json-api-parser/src/index.ts:19-34 | without collisions, the result is the members renamed one by one, in visiting order |
| JsonApiParserProperties.FixedPoint | packages/json-api-parser/src/index.ts:13-38 | a key function that fixes every name of a plain document leaves the document unchanged |
| JsonApiParserProperties.RoundTrip | packages/json-api-parser/src/index.ts:13-38 | walking with f and then with g restores any plain document whose names g undoes f on |
| JsonApiParserProperties.RoundTripObject | packages/json-api-parser/src/index.ts:19-34 | the round trip for a plain object |
| JsonApiParserProperties.RoundTripArray | packages/json-api-parser/src/index.ts:23-28 | the round trip for a plain array: length and order are kept |
| JsonApiParserProperties.ValueKeysOk | packages/json-api-parser/src/index.ts:19-34 | when every result of the key function has property p, every name at every depth of the output has p |
| JsonApiParserProperties.ItemKeysOk | packages/json-api-parser/src/index.ts:24-28 | the same for each mapped array element |
| JsonApiParserProperties.WalkKeysOk | packages/json-api-parser/src/index.ts:19-34 | the same for a walked object |
| JsonApiParserProperties.NestedArrayKeys | packages/json-api-parser/src/index.ts:24-27 | an array inside an array becomes an object whose names are the renamed indices |
| JsonApiParserProperties.ParsedKeysHaveNoSeparator | packages/json-api-parser/src/index.ts:5-7 | no name at any depth of a parsed document contains a separator |
| JsonApiParserProperties.SerializedKeysHaveNoUpper | packages/json-api-parser/src/index.ts:9-11 | no name at any depth of a serialized document contains an upper-case letter |
| JsonApiParserProperties.SerializeOfParse | packages/json-api-parser/src/index.ts:5-11 | serializing a parsed object is walking it with camel-case and then kebab-case |
| JsonApiParserProperties.ParseOfSerialize | packages/json-api-parser/src/index.ts:5-11 | parsing a serialized object is walking it with kebab-case and then camel-case |
| JsonApiParserProperties.SerializeParseRoundTrip | packages/json-api-parser/src/index.ts:5-11 | a plain object with names in kebab form comes back from `serialize(parse(x))` |
| JsonApiParserProperties.ParseSerializeRoundTrip | packages/json-api-parser/src/index.ts:5-11 | a plain object with names in camel form comes back from `parse(serialize(x))` |
| JsonApiParserProperties.SingleWordDocumentFixed | packages/json-api-parser/src/index.spec.ts:192-200 | a plain document whose names are single lower-case words is fixed by both `parse` and `serialize` |
| JsonApiParserExamples.FirstName | packages/json-api-parser/src/index.spec.ts:133-158 | "first-name" and "firstName" convert into each other |
| JsonApiParserExamples.FooBar | packages/json-api-parser/src/index.spec.ts:133-158 | "foo-bar" and "fooBar" convert into each other |
| JsonApiParserExamples.BarFoo | packages/json-api-parser/src/index.spec.ts:133-158 | "bar-foo" and "barFoo" convert into each other |
| JsonApiParserExamples.DashedRelationship | packages/json-api-parser/src/index.spec.ts:133-158 | "dashed-relationship" and "dashedRelationship" convert into each other |
| JsonApiParserExamples.BothFixWords | packages/json-api-parser/src/index.spec.ts:192-200 | both key functions fix every single lower-case word |
| JsonApiParserExamples.ObjectValue | packages/json-api-parser/src/index.ts:19-34 | an object whose renamed names are distinct is walked member by member, in order |
| JsonApiParserExamples.DeepValue | packages/json-api-parser/src/index.spec.ts:133-183 | the nested `deep` object of the test document, walked with any key function |
| JsonApiParserExamples.AttributesValue | packages/json-api-parser/src/index.spec.ts:133-183 | the test document's `attributes`, walked with any key function |
| JsonApiParserExamples.RelationshipsValue | packages/json-api-parser/src/index.spec.ts:147-153 | the `relationships` member: names renamed, and the string value "dashed-relationship" left alone |
| JsonApiParserExamples.LinksValue | packages/json-api-parser/src/index.spec.ts:154-156 | the `links` member is unchanged |
| JsonApiParserExamples.ResourceValue | packages/json-api-parser/src/index.spec.ts:133-183 | a resource's top-level names are kept and its members are walked |
| JsonApiParserExamples.DashDocumentValue | packages/json-api-parser/src/index.spec.ts:133-183 | the dash test document, walked with any key function that fixes single words |
| JsonApiParserExamples.ParseDashData | packages/json-api-parser/src/index.spec.ts:202-205 | `parse(dashData)` is `parsedDashData` |
| JsonApiParserExamples.SerializeParsedDashData | packages/json-api-parser/src/index.spec.ts:207-210 | `serialize(parsedDashData)` is `dashData` |
| JsonApiParserExamples.Collision | packages/json-api-parser/src/index.ts:33-34 | two names mapped to one: a single member, in the first one's place, with the second one's value |
| JsonApiParserExamples.CollidingNames | packages/json-api-parser/src/index.ts:33-34 | parsing {"first-name": 1, "firstName": 2} gives {"firstName": 2} |
| JsonApiParserExamples.SmallIndexKeys | packages/json-api-parser/src/index.ts:19 | array positions 0 and 1 are visited under the names "0" and "1" |
| JsonApiParserExamples.NestedArray | packages/json-api-parser/src/index.ts:24-27 | a two-element array inside an array comes back as an object keyed by its indices |
| JsonApiParserExamples.ParseMatrix | packages/json-api-parser/src/index.ts:24-27 | parsing {matrix: [["x", "y"]]} gives {matrix: [{"0": "x", "1": "y"}]} |
| HttpTypes.JsonApiHeaders | packages/json-api-http-client/src/base/index.ts:183-186 | the default headers: exactly Accept and Content-Type, both `application/vnd.api+json` (JSON:API 1.0, "Content Negotiation") |
| AxiosBinding.MergeHeaders | packages/json-api-http-client/src/axios/index.ts:46-54 | internal requests: per-request headers override the callback's, which override the defaults, name by name; external ones send exactly their own |
| AxiosBinding.PayloadFor | packages/json-api-http-client/src/axios/index.ts:63-69 | GET sends the data as query parameters, every other method as the body, and the data itself is unchanged |
| AxiosBinding.UnwrapFailure | packages/json-api-http-client/src/axios/index.ts:79-81 | a message read back out of a wrapped failure re-wraps to that failure |
| AxiosBinding.UnwrapFailureMessage | packages/json-api-http-client/src/axios/index.ts:79-81 | the original message can be read back out of the wrapped failure message for the same URL |
| AxiosBinding.Normalise | packages/json-api-http-client/src/axios/index.ts:72-81 | an error exactly for a failure or a 200 without data, wrapped with the URL; otherwise the data, or {} when it is falsy, so never a falsy value |
| RequestGate.InitialInv | packages/json-api-http-client/src/base/index.ts:43-46 | a new client's gate has no outstanding request and no transport call, and satisfies the invariant |
| RequestGate.AdmitInv | packages/json-api-http-client/src/base/index.ts:157-170 | dispatching a request keeps the gate's invariant |
| RequestGate.BeginInv | packages/json-api-http-client/src/base/index.ts:163-165 | starting a gated request keeps the invariant |
| RequestGate.FinishInv | packages/json-api-http-client/src/base/index.ts:171-176 | settling a running request keeps the invariant |
| RequestGate.SetFlagInv | packages/json-api-http-client/src/base/index.ts:38 | switching the flag keeps the invariant |
| RequestGate.AdmitEffect | packages/json-api-http-client/src/base/index.ts:157-170 | a new request joins the outstanding set in both modes; with the flag on it waits for a snapshot of that set, with it off it starts at once |
| RequestGate.BeginEffect | packages/json-api-http-client/src/base/index.ts:163-165 | a gated request starts only when all it waits for has settled; otherwise nothing changes |
| RequestGate.FinishEffect | packages/json-api-http-client/src/base/index.ts:171-176 | settling removes exactly that request from the outstanding set and records its own result |
| RequestGate.SettledIsFinal | packages/json-api-http-client/src/base/index.ts:171-174 | a settled request stays settled whatever happens next, so it leaves the set only once |
| RequestGate.OutcomeDoesNotGate | packages/json-api-http-client/src/base/index.ts:159-161 | success or failure of a predecessor makes no difference to who may start next |
| RequestGate.GatedStartsAfterPredecessors | packages/json-api-http-client/src/base/index.ts:157-165 | a gated request that has started finds every earlier request settled |
| RequestGate.OutstandingBlocksLater | packages/json-api-http-client/src/base/index.ts:170 | a request still outstanding blocks every later gated request, even one dispatched with the flag off |
| RequestGate.GatedRunsAlone | packages/json-api-http-client/src/base/index.ts:157-165 | while a gated request runs, no earlier request runs |
| RequestGate.SerializedNeverOverlap | packages/json-api-http-client/src/base/index.spec.ts:80-100 | with every request gated, at most one is running at any time |
| RequestGate.SerializedStartsInOrder | packages/json-api-http-client/src/base/index.spec.ts:125-172 | with every request gated, transport calls happen in dispatch order |
| JsonApiHttpClient.ResourcePathRoundTrip | packages/json-api-http-client/src/base/index.ts:56-68 | type and id, when neither holds a slash, can be read back from the path `buildUrl` appends |
| JsonApiHttpClient.ResourcePathExamples | packages/json-api-http-client/src/base/index.spec.ts:14-29 | the canonical paths of the tests, an id of "0" included |
| JsonApiHttpClient.BuildUrlParts | packages/json-api-http-client/src/base/index.ts:56-68 | the URL is the prefix followed by a non-empty path that gives back the type and the id or its absence |
| JsonApiHttpClient.HttpRequest | packages/json-api-http-client/src/base/index.ts:179-196 | `_http` defaults: JSON:API headers and `isInternal` true unless given |
| JsonApiHttpClient.RequestOptions.constructor | packages/json-api-http-client/src/base/index.ts:121-126 | the options object holds what it was given |
| JsonApiHttpClient.HttpClient.constructor | packages/json-api-http-client/src/base/index.ts:43-54 | no options means prefix ""; missing headers or callback mean no extra headers; the flag is off and nothing is outstanding |
| JsonApiHttpClient.HttpClient.SetSerializeRequests | packages/json-api-http-client/src/base/index.ts:38 | only the flag changes |
| JsonApiHttpClient.HttpClient.CheckSerializeRequests | packages/json-api-http-client/src/base/index.ts:143-177 | performs the gate's admit step; the transport is called at once exactly when the flag is off |
| JsonApiHttpClient.HttpClient.Start | packages/json-api-http-client/src/base/index.ts:163-165 | performs the gate's start step; the transport is called exactly when the request is ready |
| JsonApiHttpClient.HttpClient.Settle | packages/json-api-http-client/src/base/index.ts:171-176 | performs the gate's finish step; the caller gets the normalised outcome of its own request |
| JsonApiHttpClient.HttpClient.BaseHttp | packages/json-api-http-client/src/base/index.ts:179-196 | hands the request, defaults filled in, to the gate |
| JsonApiHttpClient.HttpClient.Http | packages/json-api-http-client/src/axios/index.ts:11-30 | an empty URL is refused with "url is not defined!" and the gate is untouched; any other URL is admitted |
| JsonApiHttpClient.HttpClient.Get | packages/json-api-http-client/src/base/index.ts:77-79 | GET of the link, with the query as data |
| JsonApiHttpClient.HttpClient.Create | packages/json-api-http-client/src/base/index.ts:88-90 | POST of the payload to the link |
| JsonApiHttpClient.HttpClient.Update | packages/json-api-http-client/src/base/index.ts:99-101 | PATCH of the payload to the link |
| JsonApiHttpClient.HttpClient.Destroy | packages/json-api-http-client/src/base/index.ts:109-111 | DELETE of the link without data |
| JsonApiHttpClient.HttpClient.Request | packages/json-api-http-client/src/base/index.ts:121-141 | fills in method GET, headers {} and internal false in place, keeps the data, and sends exactly those |
| HttpClientScenarios.CanonicalLinks | packages/json-api-http-client/src/base/index.spec.ts:14-23 | `buildUrl` without a prefix gives the canonical links for a type and id and for a type alone |
| HttpClientScenarios.PrefixedLinks | packages/json-api-http-client/src/base/index.spec.ts:25-29 | `buildUrl` with the prefix "/api" puts it in front of both canonical links |
| HttpClientScenarios.RequestDefaults | packages/json-api-http-client/src/base/index.spec.ts:33-46 | `request` with no options sends a GET without data or headers, as an external request |
| HttpClientScenarios.RequestFields | packages/json-api-http-client/src/base/index.spec.ts:48-73 | `request` sends the method, headers and data it is given |
| HttpClientScenarios.ParallelSerialized | packages/json-api-http-client/src/base/index.spec.ts:80-100 | with the flag on, only the first of two parallel requests reaches the transport |
| HttpClientScenarios.SerializedAfterFirst | packages/json-api-http-client/src/base/index.spec.ts:102-123 | a request dispatched before the flag went on still holds back the next one |
| HttpClientScenarios.SequentialTrace | packages/json-api-http-client/src/base/index.spec.ts:125-239 | the gate's trace for two gated fetches, each settled with its own payload, then two with the flag off again |
| HttpClientScenarios.SequentialThenParallel | packages/json-api-http-client/src/base/index.spec.ts:174-239 | gated fetches start one after the other and resolve with their own payloads; after the flag goes off, two fetches both run before either settles |
| HttpClientScenarios.FailureTrace | packages/json-api-http-client/src/base/index.ts:159-161 | the gate's trace when the first of two gated fetches fails |
| HttpClientScenarios.FailureSwallowed | packages/json-api-http-client/src/base/index.ts:159-176 | a failed predecessor lets its successor start; the first caller gets the wrapped failure, the second its own result |
| JsonApiClient.ParsedMember | packages/json-api-client/src/json-api/index.ts:21-27 | an array member is parsed element by element in order; anything else is parsed as one resource |
| JsonApiClient.ParseRawResponse | packages/json-api-client/src/json-api/index.ts:16-35 | the result has `data` and, only when `included` is truthy, `included`, each parsed; a truthy non-array `included` makes it fail |
| JsonApiClient.ParseRawResponseReadsDataAndIncluded | packages/json-api-client/src/json-api/index.ts:19 | all other top-level members are dropped: responses that agree on `data` and `included` parse alike |
| JsonApiClient.ParsedFromKeys | packages/json-api-client/src/json-api/index.ts:21-32 | every resource parsed from a member is an object without separators in its names |
| JsonApiClient.ParsedResponseIsCamelCased | packages/json-api-client/src/json-api/index.ts:16-35 | every resource handed back, in `data` or in `included`, is camel-cased at every depth |
| JsonApiClient.ParsedDataSerializesBack | packages/json-api-client/src/json-api/index.ts:26 | a single kebab-form resource under `data` is given back by serializing the parsed `data` |
| JsonApiClient.LinkOf | packages/json-api-client/src/json-api/index.ts:65 | there is a link exactly when `links.self` is truthy |
| JsonApiClient.LinkOfSelf | packages/json-api-client/src/json-api/index.ts:65 | a non-empty string under `links.self` is the link |
| JsonApiClient.NoLinkWithoutSelf | packages/json-api-client/src/json-api/index.ts:65-69 | no `links` object, or a missing, null, false, 0 or empty `self`, means no link |
| JsonApiClient.ResourceId | packages/json-api-http-client/src/base/index.ts:57-65 | the id `buildUrl` uses: absent exactly when null or undefined, a string id as it is |
| JsonApiClient.ResourceType | packages/json-api-http-client/src/base/index.ts:58 | the type `buildUrl` uses: a string type as it is, "undefined" when missing |
| JsonApiClient.Envelope | packages/json-api-client/src/json-api/index.ts:52-57 | the body sent is an object whose one member `data` is the serialized resource |
| JsonApiClient.Complete | packages/json-api-client/src/json-api/index.ts:48-85 | rejections pass through; `get` gives the parsed response, `create` and `update` its parsed `data`, `delete` nothing |
| JsonApiClient.CompleteOfOutcome | packages/json-api-http-client/src/axios/index.ts:72-81 | a transport failure or an empty 200 rejects the façade's promise with the wrapped message; `delete` succeeds exactly otherwise |
| JsonApiClient.CompleteAfterFinish | packages/json-api-http-client/src/base/index.ts:176 | once the gate has settled a request, the façade's answer is computed from that request's own outcome |
| JsonApiClient.JsonApiClient.constructor | packages/json-api-client/src/json-api/index.ts:11-14 | the façade keeps the HTTP client it is given |
| JsonApiClient.JsonApiClient.Get | packages/json-api-client/src/json-api/index.ts:37-49 | a non-empty link is fetched as it is; otherwise the URL built from type and id; with the query; never refused by the URL guard |
| JsonApiClient.JsonApiClient.Create | packages/json-api-client/src/json-api/index.ts:51-60 | POSTs `{data: serialize(resource)}` to the URL built from the resource's own type and id |
| JsonApiClient.JsonApiClient.Update | packages/json-api-client/src/json-api/index.ts:62-76 | without a link: "No link was provided for updating resource" and nothing is sent; otherwise a PATCH of the serialized resource to the link |
| JsonApiClient.JsonApiClient.Delete | packages/json-api-client/src/json-api/index.ts:78-85 | without a link: "No link was provided for deleting resource" and nothing is sent; otherwise a DELETE of the link |
| JsonApiClientScenarios.OkBody | packages/json-api-http-client/src/axios/index.ts:72-81 | an answer whose data is an object reaches the façade as that object |
| JsonApiClientScenarios.ReadsData | packages/json-api-client/src/json-api/index.ts:16-49 | a body holding only `data` parses to `{data}` with that member parsed, and `get` resolves with it |
| JsonApiClientScenarios.ReadsDataAndIncluded | packages/json-api-client/src/json-api/index.ts:16-49 | a body with `data` and an `included` array resolves `get` with both parsed, the included resources one by one |
| JsonApiClientScenarios.GetDog | packages/json-api-client/src/json-api/index.spec.ts:157-161 | `get("dog", "17")` fetches "/dog/17/"; answered 200 with `{data: dog}`, it resolves with `{data: parse(dog)}` |
| JsonApiClientScenarios.GetDogWithLegs | packages/json-api-client/src/json-api/index.spec.ts:163-184 | with a query, it fetches "/dog/17/" with the query and resolves with the dog parsed and each included leg parsed, in order |
| JsonApiClientScenarios.GetLegsWithDog | packages/json-api-client/src/json-api/index.spec.ts:186-207 | `get("legs", null, {query})` fetches "/legs/" with the query; an array `data` comes back parsed element by element, with the included dog parsed |
| JsonApiClientScenarios.GetByLink | packages/json-api-client/src/json-api/index.spec.ts:209-229 | a link wins over the type and id given beside it, and the answer is the dog and its legs parsed |
| JsonApiClientScenarios.DogMembers | packages/json-api-client/src/json-api/index.spec.ts:235-236 | the test's dog has id "17" and type "dog", so `create` sends it to "/dog/17/" |
| JsonApiClientScenarios.OwnerPlain | packages/json-api-client/src/json-api/index.spec.ts:248-257 | the dog's `owner` relationship is plain data with distinct names in each object |
| JsonApiClientScenarios.DogPlain | packages/json-api-client/src/json-api/index.spec.ts:234-259 | the test's five-member dog (id, type, attributes, links, relationships) has distinct names in every object |
| JsonApiClientScenarios.OwnerWords | packages/json-api-client/src/json-api/index.spec.ts:248-254 | "owner" and "related" are lower-case words |
| JsonApiClientScenarios.ShortNamesCamel | packages/json-api-client/src/json-api/index.spec.ts:234-259 | the dog's names "id", "type", "links", "data" and "self" are already in camel form |
| JsonApiClientScenarios.OtherNamesCamel | packages/json-api-client/src/json-api/index.spec.ts:234-259 | the dog's names "attributes", "relationships", "owner" and "related" are already in camel form |
| JsonApiClientScenarios.OwnerKeysOk | packages/json-api-client/src/json-api/index.spec.ts:248-257 | the owner relationship passes a name check that its six names pass |
| JsonApiClientScenarios.DogKeysOk | packages/json-api-client/src/json-api/index.spec.ts:234-259 | the dog passes a name check when its nine names outside the attributes and its attributes' names pass it |
| JsonApiClientScenarios.CamelDog | packages/json-api-client/src/json-api/index.spec.ts:234-259 | the test's dog, with plain camel-case attributes, is a plain camel-case document, so `CreateEchoed` and `UpdateByLink` give it back |
| JsonApiClientScenarios.ReadsWritten | packages/json-api-client/src/json-api/index.ts:51-76 | a write answered with `{data: serialize(x)}` resolves with `parse(serialize(x))`, which is `x` for a plain camel-case object |
| JsonApiClientScenarios.CreateEchoed | packages/json-api-client/src/json-api/index.spec.ts:233-296 | `create` POSTs `{data: serialize(resource)}` to the path of its type and id; when the server echoes that body with 201, it resolves with the resource, for a plain camel-case object |
| JsonApiClientScenarios.UpdateByLink | packages/json-api-client/src/json-api/index.spec.ts:301-378 | `update` of `{links: {self}, attributes}` PATCHes its serialized form to the link; answered 200 with the serialized resource, it resolves with the resource, for a plain camel-case object |
| JsonApiClientScenarios.UpdateWithoutLink | packages/json-api-client/src/json-api/index.spec.ts:380-396 | updating a resource without links is refused and sends nothing |
| JsonApiClientScenarios.DeleteByLink | packages/json-api-client/src/json-api/index.spec.ts:400-411 | deleting sends DELETE to `links.self`, and a 204 without a body resolves with nothing |
| JsonApiClientScenarios.DeleteWithoutLink | packages/json-api-client/src/json-api/index.spec.ts:413-421 | deleting an empty object is refused and sends nothing |

## Left out

- KeyCase: models lodash `camelCase` and `kebabCase` on ASCII only. Words split at '-', '_', ' ' and before an upper-case letter. Lodash's Unicode word rules, its splits between letters and digits, and its handling of runs of capitals are not modelled. Other ASCII punctuation (such as '.', '/', ':', '@' or '+') is not a word break in the model, and apostrophes are not removed, because JSON:API member names may not contain those characters.
- `for...in` order: members are visited in insertion order. JavaScript visits integer-like names first, in ascending order. Inherited members, `__proto__`, and `instanceof Object` on class instances such as dates are outside the model; documents are plain JSON.
- Numbers are mathematical integers. Floating point, NaN and Infinity do not arise.
- Input immutability: values are immutable in Dafny, so "the input is not mutated" holds by construction and has no lemma of its own.
- Promises and the microtask queue: the gate's events (admit, start, finish) are explicit steps, and the caller decides their order. `Promise.all` and `.then` ordering are not modelled beyond "a gated request starts only when everything in its snapshot has settled".
- The `axios(...)` call, its status validation and the mock adapter used by the tests are not modelled. A `TransportOutcome` given to `Settle` stands for their result. A non-2xx status is expected to arrive as `Failure` with axios's message.
- `addHeadersBeforeRequest` is represented by the header map it returns, fixed when the client is built.
- Headers are a map, so the order of header names is not modelled. `JSON.stringify` of the body is not modelled either. So the body a mock echoes back, as in the `create` test, is the JSON value that was sent, and the `update` test's check that the response contains the sent body is not modelled.
- JsonApiClientScenarios: the test documents are arguments, not the test's literals. The GET scenarios state the answer for any non-array `data`. The test's hand-written parsed objects are not compared with `parse` of its raw ones; `parse` itself has its own lemmas. The create and update scenarios give back the resource for any plain camel-case object, and `DogMembers` and `CamelDog` show the test's dog, with all five of its members, is one when its attributes are.
- The error classes (`AxiosHttpClientError`, `Error`, `TypeError`) are not distinguished: every rejection is its message string.
- `JsonApiClient.IncludedNotArray`: the TypeError text for a truthy non-array `included` depends on the engine; the model uses one fixed message.
- JsonApiClient.ParseRawResponse: requires a non-null response; the source would throw while destructuring null. `_http` never resolves with a falsy value, as `CompleteOfOutcome` shows.
- JsonApiClient.JsonApiClient.Create: requires a non-null resource; reading `type` of null throws in the source before anything is sent.
- JsonApiClient.LinkOf: a truthy `links.self` that is not a string is turned into its template text. In the source the value itself reaches `_http`. So an array `self` whose text is empty is refused by the URL guard in the model, while the source passes it on to axios.
- JsonApiClient.JsonApiClient.Get: the `link` option is a string or absent; other values of that untyped option are not modelled.
- `buildUrl` takes the type as a string. The façade's `create` converts the resource's `type` and `id` with template-literal text, as the source's `${...}` does.
- `request`: a method given as an empty string is not modelled. Methods are the four verbs.
- The `json-api-types` declarations and the abstract base of the façade package, which declare types and signatures only, are not part of this model.
