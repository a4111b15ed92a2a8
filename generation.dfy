/** generate_test_cases of app/llm_client.py: ask the hosted model for test
    cases and fall back to the mock suite whenever that path is not taken or
    fails.  The HTTP exchange is a parameter: the reply says whether the call
    got through, its status, and what the candidate chain of the JSON body
    yielded.  `json.loads` is the parameter `parse`, `None` meaning
    JSONDecodeError. */
module GenerationClient {
  import opened Wrappers
  import opened Json
  import opened Text
  import opened JsonCleanup
  import opened MockFallback
  import opened SpecNormalizer
  import opened NormalizerProperties

  /** The default of GEMINI_API_KEY: the key is not configured. */
  const PlaceholderKey: string := "your-gemini-api-key-here"

  /** What `response.json()` and `result["candidates"][0]["content"]["parts"][0]["text"]`
      yield. */
  datatype Envelope =
    | Unreadable              // the body is not JSON, or a step of the chain or `strip` raises
    | NoCandidates            // "candidates" is absent or empty
    | Candidate(text: string) // the first candidate's first text part

  /** The outcome of the POST to the model. */
  datatype Reply =
    | CallFailed                              // the request raised (network error, timeout)
    | Response(status: int, envelope: Envelope)

  /** What generate_test_cases returns; `None` where an exception escapes,
      which happens only when the mock generator itself raises. */
  function GenerateTestCases(spec: Json, apiKey: string, reply: Reply, parse: string -> Option<Json>): Option<Json>
    requires MockReady(spec)
  {
    if apiKey == PlaceholderKey then MockTestCases(spec)
    else match reply
      case CallFailed => MockTestCases(spec)
      case Response(status, envelope) =>
        if status != 200 then MockTestCases(spec)
        else match envelope
          case Unreadable => MockTestCases(spec)
          case NoCandidates => MockTestCases(spec)
          case Candidate(text) =>
            match parse(CleanupJsonText(Strip(text)))
            case None => MockTestCases(spec)
            case Some(v) => Some(v)
  }

  /** Reference definition: the text the model produced, when the key is
      configured, the call got through with status 200 and a candidate text
      was found. */
  function ModelText(apiKey: string, reply: Reply): Option<string>
  {
    if apiKey != PlaceholderKey && reply.Response? && reply.status == 200 && reply.envelope.Candidate?
    then Some(reply.envelope.text)
    else None
  }

  /** The result is never a mix: it is the parse of the cleaned model text
      when there is one that parses, and the mock suite in every other case. */
  lemma OutcomeIsParseOrMock(spec: Json, apiKey: string, reply: Reply, parse: string -> Option<Json>)
    requires MockReady(spec)
    ensures ModelText(apiKey, reply).None? ==> GenerateTestCases(spec, apiKey, reply, parse) == MockTestCases(spec)
    ensures ModelText(apiKey, reply).Some? ==>
      var parsed := parse(CleanupJsonText(Strip(ModelText(apiKey, reply).value)));
      GenerateTestCases(spec, apiKey, reply, parse) == if parsed.Some? then parsed else MockTestCases(spec)
  {
  }

  /** Without a configured key the reply and the parser play no part. */
  lemma PlaceholderKeyIgnoresModel(spec: Json, reply: Reply, reply': Reply, parse: string -> Option<Json>, parse': string -> Option<Json>)
    requires MockReady(spec)
    ensures GenerateTestCases(spec, PlaceholderKey, reply, parse) == GenerateTestCases(spec, PlaceholderKey, reply', parse')
    ensures GenerateTestCases(spec, PlaceholderKey, reply, parse) == MockTestCases(spec)
  {
  }

  /** Any status other than 200 falls back to the mock suite, whatever the
      body says. */
  lemma ProviderErrorFallsBack(spec: Json, apiKey: string, status: int, envelope: Envelope, parse: string -> Option<Json>)
    requires MockReady(spec) && status != 200
    ensures GenerateTestCases(spec, apiKey, Response(status, envelope), parse) == MockTestCases(spec)
  {
  }

  /** A reply that is already a bracketed JSON text reaches the parser
      untouched, so its parse is the result. */
  lemma BracketedReplyRoundTrip(spec: Json, apiKey: string, text: string, v: Json, parse: string -> Option<Json>)
    requires MockReady(spec) && apiKey != PlaceholderKey
    requires |text| >= 2 && (text[0] == '[' || text[0] == '{') && text[|text| - 1] == CloserOf(text[0])
    requires parse(text) == Some(v)
    ensures GenerateTestCases(spec, apiKey, Response(200, Candidate(text)), parse) == Some(v)
  {
    StripUnpadded(text);
    CleanupKeepsBracketed(text);
  }

  /** A bracketed JSON text inside a fenced block with a language tag reaches
      the parser without its fences. */
  lemma FencedReplyRoundTrip(spec: Json, apiKey: string, tag: string, body: string, v: Json, parse: string -> Option<Json>)
    requires MockReady(spec) && apiKey != PlaceholderKey
    requires forall i :: 0 <= i < |tag| ==> IsAsciiLetter(tag[i])
    requires |body| >= 2 && (body[0] == '[' || body[0] == '{') && body[|body| - 1] == CloserOf(body[0])
    requires !HasFence(body)
    requires parse(body) == Some(v)
    ensures GenerateTestCases(spec, apiKey, Response(200, Candidate(Fence + tag + "\n" + body + "\n" + Fence)), parse) == Some(v)
  {
    var text := Fence + tag + "\n" + body + "\n" + Fence;
    assert text[0] == '`' && text[|text| - 1] == '`';
    StripUnpadded(text);
    CleanupFencedBlock(tag, body);
  }

  /** The reply "Sure! ```json\n[]\n```" is cleaned to "[]", and once that
      parses to the empty list the empty list is the result: the mock suite
      is not used. */
  lemma ProseWrappedReplyExample(spec: Json, apiKey: string, parse: string -> Option<Json>)
    requires MockReady(spec) && apiKey != PlaceholderKey
    requires parse("[]") == Some(JArr([]))
    ensures GenerateTestCases(spec, apiKey, Response(200, Candidate("Sure! ```json\n" + "[]" + "\n```")), parse) == Some(JArr([]))
  {
    var text := "Sure! ```json\n" + "[]" + "\n```";
    assert Strip(text) == text by {
      assert text[0] == 'S' && text[|text| - 1] == '`';
      StripUnpadded(text);
    }
    ProseThenFenceExample();
    CleanupInTwoSteps(text, text, "[]");
    CleanedReplyParsed(spec, apiKey, text, "[]", JArr([]), parse);
  }

  /** A candidate text whose cleaned form parses yields that parse. */
  lemma CleanedReplyParsed(spec: Json, apiKey: string, text: string, cleaned: string, v: Json, parse: string -> Option<Json>)
    requires MockReady(spec) && apiKey != PlaceholderKey
    requires CleanupJsonText(Strip(text)) == cleaned && parse(cleaned) == Some(v)
    ensures GenerateTestCases(spec, apiKey, Response(200, Candidate(text)), parse) == Some(v)
  {
  }

  /** A text the parser rejects falls back to the mock suite. */
  lemma UnparsableReplyFallsBack(spec: Json, apiKey: string, text: string, parse: string -> Option<Json>)
    requires MockReady(spec)
    requires parse(CleanupJsonText(Strip(text))).None?
    ensures GenerateTestCases(spec, apiKey, Response(200, Candidate(text)), parse) == MockTestCases(spec)
  {
  }

  // ---------------------------------------------------------------------
  // The mock suite of a normalised spec

  /** The group the mock generator builds from a normalised endpoint: every
      copied field is the endpoint's own, no default applies. */
  predicate MirrorsEndpoint(group: Json, endpoint: Json, n: nat)
  {
    endpoint.JObj? &&
    group == JObj([
      ("endpoint", Field(endpoint.fields, "path", JNull)),
      ("method", Field(endpoint.fields, "method", JNull)),
      ("summary", Field(endpoint.fields, "summary", JNull)),
      ("operationId", Field(endpoint.fields, "operationId", JNull)),
      ("testCases", JArr([HappyPath(n), MissingAuth(n)]))])
  }

  lemma MirrorKeys(group: Json, endpoint: Json, n: nat)
    requires MirrorsEndpoint(group, endpoint, n)
    ensures group.JObj? && Keys(group.fields) == ["endpoint", "method", "summary", "operationId", "testCases"]
    ensures group.fields[0].1 == Field(endpoint.fields, "path", JNull)
    ensures group.fields[1].1 == Field(endpoint.fields, "method", JNull)
    ensures group.fields[3].1 == Field(endpoint.fields, "operationId", JNull)
    ensures group.fields[4].1 == JArr([HappyPath(n), MissingAuth(n)])
  {
  }

  /** What the mock generator reads of a normalised endpoint: its first
      four keys and an upper-case method. */
  predicate EndpointShaped(e: Json)
  {
    e.JObj? && |e.fields| >= 4
    && e.fields[0].0 == "path" && e.fields[1].0 == "method"
    && e.fields[2].0 == "operationId" && e.fields[3].0 == "summary"
    && e.fields[1].1.JStr? && Upper(e.fields[1].1.s) == e.fields[1].1.s
  }

  lemma EndpointIsShaped(path: string, verb: string, operation: Json)
    requires EndpointOf(path, verb, operation).Some?
    ensures EndpointShaped(EndpointOf(path, verb, operation).value)
  {
    EndpointRecord(path, verb, operation);
    var e := EndpointOf(path, verb, operation).value.fields;
    UpperIdempotent(verb);
  }

  /** The mock group of a normalised endpoint mirrors it. */
  lemma MockOfEndpoint(n: nat, e: Json)
    requires EndpointShaped(e)
    ensures Formattable(e) && MockGroup(n, e).Some? && MirrorsEndpoint(MockGroup(n, e).value, e, n)
  {
    var fs := e.fields;
    LookupFirst(fs, 0);
    LookupFirst(fs, 1);
    LookupFirst(fs, 2);
    LookupFirst(fs, 3);
    assert HasKey(fs, "summary");
  }

  /** A spec whose endpoints are all shaped like normalised ones has a mock
      suite with one mirroring group per endpoint. */
  lemma MockOfShapedEndpoints(p: Json, endpoints: seq<Json>)
    requires p.JObj? && Lookup(p.fields, "endpoints") == Some(JArr(endpoints))
    requires forall k :: 0 <= k < |endpoints| ==> EndpointShaped(endpoints[k])
    ensures MockReady(p)
    ensures MockTestCases(p).Some? && MockTestCases(p).value.JArr?
      && |MockTestCases(p).value.items| == |endpoints|
      && forall k :: 0 <= k < |endpoints| ==> MirrorsEndpoint(MockTestCases(p).value.items[k], endpoints[k], k + 1)
  {
    assert Iter(Field(p.fields, "endpoints", JArr([]))) == Some(endpoints);
    forall k | 0 <= k < |endpoints|
      ensures Formattable(endpoints[k]) && MockGroup(1 + k, endpoints[k]).Some?
      ensures MirrorsEndpoint(MockGroup(1 + k, endpoints[k]).value, endpoints[k], k + 1)
    {
      MockOfEndpoint(1 + k, endpoints[k]);
    }
    MockSuiteShape(p);
  }

  /** Every endpoint of a normalised spec has the shape the mock generator
      reads. */
  lemma NormalizedEndpointsShaped(spec: Json)
    requires Preprocess(spec) != JObj([])
    ensures var p := Preprocess(spec);
      p.JObj? && |p.fields| == 3 && p.fields[2].1.JArr?
      && Lookup(p.fields, "endpoints") == Some(p.fields[2].1)
      && forall k :: 0 <= k < |p.fields[2].1.items| ==> EndpointShaped(p.fields[2].1.items[k])
  {
    var p := Preprocess(spec);
    var endpoints := p.fields[2].1.items;
    var ops := KeptOperations(Field(spec.fields, "paths", JObj([])).fields);
    PreprocessEndpoints(spec);
    assert Keys(p.fields)[0] == "info" && Keys(p.fields)[1] == "servers" && Keys(p.fields)[2] == "endpoints";
    LookupFirst(p.fields, 2);
    forall k | 0 <= k < |endpoints| ensures EndpointShaped(endpoints[k]) {
      EndpointIsShaped(ops[k].0, ops[k].1, ops[k].2);
    }
  }

  /** A normalised spec always has a mock suite: one group per endpoint,
      each mirroring its endpoint; the `{}` of a failed normalisation gets
      an empty suite. */
  lemma MockOfNormalized(spec: Json)
    ensures MockReady(Preprocess(spec))
    ensures var p := Preprocess(spec);
      var endpoints := if p == JObj([]) then [] else p.fields[2].1.items;
      && MockTestCases(p).Some? && MockTestCases(p).value.JArr?
      && |MockTestCases(p).value.items| == |endpoints|
      && forall k :: 0 <= k < |endpoints| ==> MirrorsEndpoint(MockTestCases(p).value.items[k], endpoints[k], k + 1)
  {
    var p := Preprocess(spec);
    if p == JObj([]) {
      assert MockTestCases(p) == Some(JArr([]));
    } else {
      NormalizedEndpointsShaped(spec);
      MockOfShapedEndpoints(p, p.fields[2].1.items);
    }
  }

  /** The path of the GET /items/{id} scenario. */
  const ItemsPath: string := "/items/{id}"

  /** The document of the GET /items/{id} scenario, around an operation
      `op`. */
  function ItemsSpec(op: Fields): Json
  {
    JObj([("openapi", JStr("3.0.0")), ("info", JObj([])),
          ("paths", JObj([(ItemsPath, JObj([("get", JObj(op))]))]))])
  }

  /** A document with one path holding one kept operation normalises to
      that operation's endpoint alone. */
  lemma SingleOperationNormalized(spec: Json, path: string, verb: string, operation: Json)
    requires spec.JObj? && Truthy(spec)
    requires Field(spec.fields, "paths", JObj([])) == JObj([(path, JObj([(verb, operation)]))])
    requires IsHttpMethod(verb) && EndpointOf(path, verb, operation).Some?
    ensures var p := Preprocess(spec);
      p != JObj([]) && p.fields[2].1.items == [EndpointOf(path, verb, operation).value]
  {
    var e := EndpointOf(path, verb, operation).value;
    var methods := [(verb, operation)];
    var paths := [(path, JObj(methods))];
    assert PathEndpoints([], path, methods, EndpointOf) == Some([e]) by {
      assert methods[0] == (verb, operation) && methods[1..] == [];
      assert EndpointOf(path, methods[0].0, methods[0].1) == Some(e);
      var none: seq<Json> := [];
      assert none + [e] == [e];
      assert PathEndpoints([e], path, [], EndpointOf) == Some([e]);
    }
    assert AllEndpoints([], paths, EndpointOf) == Some([e]) by {
      assert paths[0].1 == JObj(methods) && paths[1..] == [];
    }
  }

  /** The scenario document passes validate_openapi_spec. */
  lemma ItemsSpecValid(op: Fields)
    ensures ValidateOpenApiSpec(ItemsSpec(op))
  {
    var fs := ItemsSpec(op).fields;
    assert Keys(fs)[0] == "openapi" && Keys(fs)[1] == "info" && Keys(fs)[2] == "paths";
    LookupFirst(fs, 2);
  }

  /** The scenario document normalises to the single endpoint of `op`. */
  lemma ItemsSpecNormalized(op: Fields)
    requires EndpointOf(ItemsPath, "get", JObj(op)).Some?
    ensures var p := Preprocess(ItemsSpec(op));
      p != JObj([]) && p.fields[2].1.items == [EndpointOf(ItemsPath, "get", JObj(op)).value]
  {
    ItemsSpecPaths(op);
    GetIsKept();
    SingleOperationNormalized(ItemsSpec(op), ItemsPath, "get", JObj(op));
  }

  /** The scenario document's paths, as preprocess reads them. */
  lemma ItemsSpecPaths(op: Fields)
    ensures ItemsSpec(op).JObj? && Truthy(ItemsSpec(op))
    ensures Field(ItemsSpec(op).fields, "paths", JObj([])) == JObj([(ItemsPath, JObj([("get", JObj(op))]))])
  {
    LookupFirst(ItemsSpec(op).fields, 2);
  }

  /** The method key `get` is kept. */
  lemma GetIsKept()
    ensures IsHttpMethod("get")
  {
    LowerFixed("get");
    assert HttpMethods[0] == "get";
  }

  /** The endpoint's path, method and operationId as a dict lookup sees
      them. */
  lemma EndpointHead(path: string, verb: string, operation: Json)
    requires EndpointOf(path, verb, operation).Some?
    ensures operation.JObj?
    ensures var e := EndpointOf(path, verb, operation).value.fields;
      && Field(e, "path", JNull) == JStr(path)
      && Field(e, "method", JNull) == JStr(Upper(verb))
      && (!HasKey(operation.fields, "operationId") ==>
            Field(e, "operationId", JNull) == JStr(DefaultOperationId(verb, path)))
  {
    EndpointRecord(path, verb, operation);
    var e := EndpointOf(path, verb, operation).value.fields;
    HeadLookups(e);
  }

  lemma HeadLookups(e: Fields)
    requires |e| >= 3 && e[0].0 == "path" && e[1].0 == "method" && e[2].0 == "operationId"
    ensures Field(e, "path", JNull) == e[0].1 && Field(e, "method", JNull) == e[1].1
    ensures Field(e, "operationId", JNull) == e[2].1
  {
    LookupFirst(e, 0);
    LookupFirst(e, 1);
    LookupFirst(e, 2);
  }

  /** What the mock generator reads of the scenario's endpoint. */
  lemma ItemsEndpoint(op: Fields)
    requires !HasKey(op, "operationId")
    requires EndpointOf(ItemsPath, "get", JObj(op)).Some?
    ensures var e := EndpointOf(ItemsPath, "get", JObj(op)).value.fields;
      && Field(e, "path", JNull) == JStr(ItemsPath)
      && Field(e, "method", JNull) == JStr("GET")
      && Field(e, "operationId", JNull) == JStr("get__items_{id}")
  {
    assert Upper("get") == "GET";
    assert DefaultOperationId("get", ItemsPath) == "get__items_{id}" by { DefaultOperationIdExample(); }
    EndpointHead(ItemsPath, "get", JObj(op));
  }

  /** The scenario's mock suite: one group, mirroring the scenario's
      endpoint. */
  lemma ItemsMock(op: Fields)
    requires EndpointOf(ItemsPath, "get", JObj(op)).Some?
    ensures var p := Preprocess(ItemsSpec(op));
      && MockReady(p) && MockTestCases(p).Some? && MockTestCases(p).value.JArr?
      && |MockTestCases(p).value.items| == 1
      && MirrorsEndpoint(MockTestCases(p).value.items[0], EndpointOf(ItemsPath, "get", JObj(op)).value, 1)
  {
    ItemsSpecNormalized(op);
    MockOfNormalized(ItemsSpec(op));
  }

  /** A spec with a single `GET /items/{id}` operation that declares no
      operationId, run without a configured key: one group, for method GET,
      whose operationId is derived from the method key and the path with
      each slash made an underscore, holding exactly the happy-path and the
      missing-authorisation case of endpoint 1. */
  lemma ItemsScenario(op: Fields, reply: Reply, parse: string -> Option<Json>)
    requires !HasKey(op, "operationId")
    requires ParametersOf(op).Some? && RequestBodyOf(op).Some? && ResponsesOf(op).Some?
    ensures ValidateOpenApiSpec(ItemsSpec(op)) && MockReady(Preprocess(ItemsSpec(op)))
    ensures var suite := GenerateTestCases(Preprocess(ItemsSpec(op)), PlaceholderKey, reply, parse);
      && suite.Some? && suite.value.JArr? && |suite.value.items| == 1
      && var g := suite.value.items[0];
      && g.JObj? && Keys(g.fields) == ["endpoint", "method", "summary", "operationId", "testCases"]
      && g.fields[0].1 == JStr(ItemsPath)
      && g.fields[1].1 == JStr("GET")
      && g.fields[3].1 == JStr("get__items_{id}")
      && g.fields[4].1 == JArr([HappyPath(1), MissingAuth(1)])
  {
    ItemsSpecValid(op);
    ItemsMock(op);
    var p := Preprocess(ItemsSpec(op));
    var e := EndpointOf(ItemsPath, "get", JObj(op)).value;
    ItemsEndpoint(op);
    assert GenerateTestCases(p, PlaceholderKey, reply, parse) == MockTestCases(p);
    MirrorKeys(MockTestCases(p).value.items[0], e, 1);
  }

  /** The ids of the scenario's two cases. */
  lemma ItemsScenarioTestIds()
    ensures TestId(1, "HappyPath") == "TC001_Mock_HappyPath"
    ensures TestId(1, "MissingAuth") == "TC001_Mock_MissingAuth"
  {
    FirstEndpointTestId("HappyPath");
    FirstEndpointTestId("MissingAuth");
  }
}
