/** generate_mock_test_cases of app/llm_client.py: the canned test suite
    returned whenever the language-model path is not taken or fails.  Each
    endpoint of the normalised spec yields one group holding a happy-path
    case and a missing-authorisation case, numbered from 1. */
module MockFallback {
  import opened Wrappers
  import opened Json
  import opened Text

  /** `f"TC{i:03d}_Mock_{scenario}"`. */
  function TestId(i: nat, scenario: string): string
  {
    "TC" + Pad3(i) + "_Mock_" + scenario
  }

  const HappyPathDescription: string := "Verify the API works correctly with valid required parameters."

  /** The happy-path request: an id, a filter, a bearer token and a body. */
  const HappyPathRequest: Json := JObj([
    ("pathParams", JObj([("id", JNum(123))])),
    ("queryParams", JObj([("filter", JStr("active"))])),
    ("headers", JObj([("Content-Type", JStr("application/json")),
                      ("Authorization", JStr("Bearer <VALID_TOKEN>"))])),
    ("body", JObj([("name", JStr("Test Item")), ("value", JNum(100))]))])

  const HappyPathExpected: Json := JObj([
    ("statusCode", JNum(200)),
    ("bodyContract", JObj([("id", JStr("integer")), ("name", JStr("string")), ("status", JStr("string"))])),
    ("headers", JObj([("Content-Type", JStr("application/json"))]))])

  const MissingAuthDescription: string := "Verify the API returns an unauthorized error when the auth token is missing."

  /** The same request without parameters, body or token. */
  const MissingAuthRequest: Json := JObj([
    ("pathParams", JObj([])),
    ("queryParams", JObj([])),
    ("headers", JObj([("Content-Type", JStr("application/json"))])),
    ("body", JObj([]))])

  const MissingAuthExpected: Json := JObj([
    ("statusCode", JNum(401)),
    ("bodyContract", JObj([("error", JStr("Unauthorized")), ("message", JStr("string"))])),
    ("headers", JObj([]))])

  function HappyPath(i: nat): Json
  {
    JObj([
      ("testId", JStr(TestId(i, "HappyPath"))),
      ("description", JStr(HappyPathDescription)),
      ("category", JStr("Positive")),
      ("request", HappyPathRequest),
      ("expectedResponse", HappyPathExpected)])
  }

  function MissingAuth(i: nat): Json
  {
    JObj([
      ("testId", JStr(TestId(i, "MissingAuth"))),
      ("description", JStr(MissingAuthDescription)),
      ("category", JStr("Authentication")),
      ("request", MissingAuthRequest),
      ("expectedResponse", MissingAuthExpected)])
  }

  /** Values whose `str()` this model spells out: everything but lists and
      dicts, whose `repr` text it does not model. */
  predicate Printable(x: Json)
  {
    !x.JArr? && !x.JObj?
  }

  /** `str(x)` inside an f-string. */
  function PyStr(x: Json): string
    requires Printable(x)
  {
    match x
    case JNull => "None"
    case JBool(b) => if b then "True" else "False"
    case JNum(n) => IntToString(n)
    case JStr(s) => s
  }

  /** `str()` of a printable value: a str is itself, a number its decimal
      text, and None, True and False their Python names, so a path prints as
      the path it is. */
  lemma PyStrValue(x: Json)
    requires Printable(x)
    ensures x.JStr? ==> PyStr(x) == x.s
    ensures x.JNum? ==> PyStr(x) == IntToString(x.n) && PyStr(x) != "None" && PyStr(x) != "True" && PyStr(x) != "False"
    ensures x.JNull? ==> PyStr(x) == "None"
    ensures x.JBool? ==> PyStr(x) == if x.b then "True" else "False"
  {
    if x.JNum? {
      IntToStringValue(x.n);
      var s := IntToString(x.n);
      assert s[0] != 'N' && s[0] != 'T' && s[0] != 'F' by {
        if x.n >= 0 { assert IsDigit(s[0]); } else { assert s[0] == '-'; }
      }
    }
  }

  /** The default summary is only used when the endpoint has none, so only
      then must its path be printable. */
  predicate Formattable(endpoint: Json)
  {
    endpoint.JObj? && !HasKey(endpoint.fields, "summary") ==> Printable(Field(endpoint.fields, "path", JStr("unknown")))
  }

  /** The group for the `i`-th endpoint; `None` where Python raises: the
      endpoint is not a dict (no `get`), or its method is not a str (no
      `upper`). */
  function MockGroup(i: nat, endpoint: Json): (r: Option<Json>)
    requires Formattable(endpoint)
    ensures r.None? <==> !endpoint.JObj? || !Field(endpoint.fields, "method", JStr("GET")).JStr?
  {
    if !endpoint.JObj? then None
    else
      var e := endpoint.fields;
      match Field(e, "method", JStr("GET"))
      case JStr(verb) =>
        var summary :=
          if HasKey(e, "summary") then Field(e, "summary", JNull)
          else JStr("Mock summary for " + PyStr(Field(e, "path", JStr("unknown"))));
        Some(JObj(GroupFields(i, e, verb, summary)))
      case _ => None
  }

  /** The five fields of the `i`-th group, in the order the source writes
      them, given the method and the summary already chosen. */
  function GroupFields(i: nat, e: Fields, verb: string, summary: Json): Fields
  {
    [ ("endpoint", Field(e, "path", JStr("/"))),
      ("method", JStr(Upper(verb))),
      ("summary", summary),
      ("operationId", Field(e, "operationId", JStr("mock_op_" + NatToString(i)))),
      ("testCases", JArr([HappyPath(i), MissingAuth(i)])) ]
  }

  predicate AllFormattable(endpoints: seq<Json>)
  {
    forall k :: 0 <= k < |endpoints| ==> Formattable(endpoints[k])
  }

  /** `for i, endpoint in enumerate(endpoints, start)`, appending
      `group(i, endpoint)` to `acc`; the first group that fails (raises)
      fails the loop. */
  function Enumerate(acc: seq<Json>, start: nat, endpoints: seq<Json>, group: (nat, Json) --> Option<Json>): Option<seq<Json>>
    requires forall k :: 0 <= k < |endpoints| ==> group.requires(start + k, endpoints[k])
    decreases |endpoints|
  {
    if endpoints == [] then Some(acc)
    else match group(start, endpoints[0])
      case None => None
      case Some(g) =>
        assert forall k :: 0 <= k < |endpoints| - 1 ==> endpoints[1..][k] == endpoints[k + 1];
        Enumerate(acc + [g], start + 1, endpoints[1..], group)
  }

  /** The specs this model can run the mock generator on (see Formattable). */
  predicate MockReady(spec: Json)
  {
    spec.JObj? ==>
      match Iter(Field(spec.fields, "endpoints", JArr([])))
      case Some(endpoints) => AllFormattable(endpoints)
      case None => true
  }

  /** What generate_mock_test_cases returns; `None` where it raises. */
  function MockTestCases(spec: Json): Option<Json>
    requires MockReady(spec)
  {
    if !spec.JObj? then None
    else match Iter(Field(spec.fields, "endpoints", JArr([])))
      case None => None
      case Some(endpoints) =>
        match Enumerate([], 1, endpoints, MockGroup)
        case None => None
        case Some(groups) => Some(JArr(groups))
  }

  method GenerateMockTestCases(spec: Json) returns (r: Option<Json>)
    requires MockReady(spec)
    ensures r == MockTestCases(spec)
  {
    if !spec.JObj? {
      return None;
    }
    var iterated := Iter(Field(spec.fields, "endpoints", JArr([])));
    if iterated.None? {
      return None;
    }
    var endpoints := iterated.value;
    var groups: seq<Json> := [];
    var i := 0;
    while i < |endpoints|
      invariant 0 <= i <= |endpoints|
      invariant Enumerate([], 1, endpoints, MockGroup) == Enumerate(groups, i + 1, endpoints[i..], MockGroup)
    {
      assert endpoints[i..][0] == endpoints[i] && endpoints[i..][1..] == endpoints[i + 1..];
      var g := MockGroup(i + 1, endpoints[i]);
      if g.None? {
        return None;
      }
      groups := groups + [g.value];
      i := i + 1;
    }
    assert endpoints[i..] == [];
    return Some(JArr(groups));
  }

  // ---------------------------------------------------------------------
  // Properties

  /** The loop fails exactly when the group of some endpoint fails. */
  lemma {:induction false} EnumerateFails(acc: seq<Json>, start: nat, endpoints: seq<Json>, group: (nat, Json) --> Option<Json>)
    requires forall k :: 0 <= k < |endpoints| ==> group.requires(start + k, endpoints[k])
    ensures Enumerate(acc, start, endpoints, group).None? <==>
            exists k :: 0 <= k < |endpoints| && group(start + k, endpoints[k]).None?
    decreases |endpoints|
  {
    if endpoints != [] {
      var rest := endpoints[1..];
      assert forall k :: 0 <= k < |rest| ==> rest[k] == endpoints[k + 1];
      var g := group(start, endpoints[0]);
      if g.Some? {
        EnumerateFails(acc + [g.value], start + 1, rest, group);
        if Enumerate(acc, start, endpoints, group).None? {
          var k :| 0 <= k < |rest| && group(start + 1 + k, rest[k]).None?;
          assert group(start + (k + 1), endpoints[k + 1]).None?;
        } else {
          forall k | 0 <= k < |endpoints| ensures group(start + k, endpoints[k]).Some? {
            if k > 0 { assert endpoints[k] == rest[k - 1]; }
          }
        }
      }
    }
  }

  /** Reference reading of the loop: one group per endpoint, the `k`-th
      (0-based) numbered `start + k`, appended after `acc`. */
  lemma {:induction false} EnumeratePointwise(acc: seq<Json>, start: nat, endpoints: seq<Json>, group: (nat, Json) --> Option<Json>)
    requires forall k :: 0 <= k < |endpoints| ==> group.requires(start + k, endpoints[k])
    requires Enumerate(acc, start, endpoints, group).Some?
    ensures var out := Enumerate(acc, start, endpoints, group).value;
      |out| == |acc| + |endpoints| && out[..|acc|] == acc
      && forall k :: 0 <= k < |endpoints| ==> group(start + k, endpoints[k]) == Some(out[|acc| + k])
    decreases |endpoints|
  {
    if endpoints != [] {
      var rest := endpoints[1..];
      assert forall k :: 0 <= k < |rest| ==> rest[k] == endpoints[k + 1];
      var g := group(start, endpoints[0]).value;
      var out := Enumerate(acc, start, endpoints, group).value;
      EnumeratePointwise(acc + [g], start + 1, rest, group);
      assert out[..|acc|] == out[..|acc| + 1][..|acc|];
      forall k | 0 <= k < |endpoints|
        ensures group(start + k, endpoints[k]) == Some(out[|acc| + k])
      {
        if k > 0 {
          assert group(start + 1 + (k - 1), rest[k - 1]) == Some(out[|acc| + 1 + (k - 1)]);
        }
      }
    }
  }

  /** The mock suite has one group per iterated endpoint, in order, the
      `k`-th (0-based) built with number `k + 1`; a spec without endpoints
      gets an empty suite. */
  lemma MockSuiteShape(spec: Json)
    requires MockReady(spec) && spec.JObj?
    requires Iter(Field(spec.fields, "endpoints", JArr([]))).Some?
    ensures var endpoints := Iter(Field(spec.fields, "endpoints", JArr([]))).value;
      && (MockTestCases(spec).None? <==> exists k :: 0 <= k < |endpoints| && MockGroup(1 + k, endpoints[k]).None?)
      && (MockTestCases(spec).Some? ==>
            var r := MockTestCases(spec).value;
            r.JArr? && |r.items| == |endpoints|
            && forall k :: 0 <= k < |endpoints| ==> MockGroup(1 + k, endpoints[k]) == Some(r.items[k]))
  {
    var endpoints := Iter(Field(spec.fields, "endpoints", JArr([]))).value;
    var out := Enumerate([], 1, endpoints, MockGroup);
    assert MockTestCases(spec) == if out.None? then None else Some(JArr(out.value));
    EnumerateFromOne(endpoints, MockGroup);
  }

  /** The loop from an empty list, numbering from 1. */
  lemma EnumerateFromOne(endpoints: seq<Json>, group: (nat, Json) --> Option<Json>)
    requires forall k :: 0 <= k < |endpoints| ==> group.requires(1 + k, endpoints[k])
    ensures var out := Enumerate([], 1, endpoints, group);
      && (out.None? <==> exists k :: 0 <= k < |endpoints| && group(1 + k, endpoints[k]).None?)
      && (out.Some? ==>
            |out.value| == |endpoints| &&
            forall k :: 0 <= k < |endpoints| ==> group(1 + k, endpoints[k]) == Some(out.value[k]))
  {
    EnumerateFails([], 1, endpoints, group);
    if Enumerate([], 1, endpoints, group).Some? {
      EnumeratePointwise([], 1, endpoints, group);
    }
  }

  /** A dict without "endpoints" gets an empty suite. */
  lemma NoEndpointsNoGroups(spec: Json)
    requires spec.JObj? && !HasKey(spec.fields, "endpoints")
    ensures MockReady(spec) && MockTestCases(spec) == Some(JArr([]))
  {
  }

  /** `str` of a number in the default summary. */
  lemma PyStrExample()
    ensures PyStr(JNum(-7)) == "-7" && PyStr(JNull) == "None" && PyStr(JBool(true)) == "True"
  {
  }

  /** The fields of a group, each from its endpoint or its default. */
  lemma MockGroupFields(i: nat, endpoint: Json)
    requires Formattable(endpoint) && endpoint.JObj?
    requires Field(endpoint.fields, "method", JStr("GET")).JStr?
    ensures var g := MockGroup(i, endpoint).value.fields;
      var e := endpoint.fields;
      && g[0].1 == (if HasKey(e, "path") then Field(e, "path", JNull) else JStr("/"))
      && g[1].1 == JStr(Upper(if HasKey(e, "method") then Field(e, "method", JNull).s else "GET"))
      && g[2].1 == (if HasKey(e, "summary") then Field(e, "summary", JNull)
                    else JStr("Mock summary for " + PyStr(Field(e, "path", JStr("unknown")))))
      && g[3].1 == (if HasKey(e, "operationId") then Field(e, "operationId", JNull)
                    else JStr("mock_op_" + NatToString(i)))
      && g[4].1 == JArr([HappyPath(i), MissingAuth(i)])
      && Keys(g) == ["endpoint", "method", "summary", "operationId", "testCases"]
  {
    var e := endpoint.fields;
    var verb := Field(e, "method", JStr("GET")).s;
    var summary :=
      if HasKey(e, "summary") then Field(e, "summary", JNull)
      else JStr("Mock summary for " + PyStr(Field(e, "path", JStr("unknown"))));
    assert MockGroup(i, endpoint).value.fields == GroupFields(i, e, verb, summary);
    FieldDefault(e, "method", JStr("GET"));
    GroupFieldsDefaults(i, e, verb, summary);
  }

  /** The group's fields by position, with `.get`'s defaults spelled out. */
  lemma GroupFieldsDefaults(i: nat, e: Fields, verb: string, summary: Json)
    ensures var g := GroupFields(i, e, verb, summary);
      && g[0].1 == (if HasKey(e, "path") then Field(e, "path", JNull) else JStr("/"))
      && g[1].1 == JStr(Upper(verb))
      && g[2].1 == summary
      && g[3].1 == (if HasKey(e, "operationId") then Field(e, "operationId", JNull)
                    else JStr("mock_op_" + NatToString(i)))
      && g[4].1 == JArr([HappyPath(i), MissingAuth(i)])
      && Keys(g) == ["endpoint", "method", "summary", "operationId", "testCases"]
  {
    FieldDefault(e, "path", JStr("/"));
    FieldDefault(e, "operationId", JStr("mock_op_" + NatToString(i)));
  }

  /** `x[k1][k2]...`: `None` if some step is not a dict holding the key. */
  function At(x: Json, path: seq<string>): Option<Json>
    decreases |path|
  {
    if path == [] then Some(x)
    else if !x.JObj? then None
    else match Lookup(x.fields, path[0])
      case None => None
      case Some(v) => At(v, path[1..])
  }

  /** One step of `At` through a key's first pair. */
  lemma AtStep(x: Json, n: nat, path: seq<string>)
    requires x.JObj? && path != [] && n < |x.fields| && x.fields[n].0 == path[0]
    requires forall j :: 0 <= j < n ==> x.fields[j].0 != path[0]
    ensures At(x, path) == At(x.fields[n].1, path[1..])
  {
    LookupFirst(x.fields, n);
  }

  /** A step through the "request" field of a case. */
  lemma CaseRequest(c: Json, rest: seq<string>)
    requires c.JObj? && |c.fields| == 5 && c.fields[3].0 == "request"
    requires c.fields[0].0 == "testId" && c.fields[1].0 == "description" && c.fields[2].0 == "category"
    ensures At(c, ["request"] + rest) == At(c.fields[3].1, rest)
  {
    var path := ["request"] + rest;
    assert path[0] == "request" && path[1..] == rest;
    AtStep(c, 3, path);
  }

  lemma HappyPathIdentity(i: nat)
    ensures At(HappyPath(i), ["testId"]) == Some(JStr(TestId(i, "HappyPath")))
    ensures At(HappyPath(i), ["category"]) == Some(JStr("Positive"))
  {
    assert At(HappyPath(i), ["testId"]) == Some(JStr(TestId(i, "HappyPath"))) by {
      AtStep(HappyPath(i), 0, ["testId"]);
    }
    AtStep(HappyPath(i), 2, ["category"]);
  }

  lemma HappyPathSendsToken(i: nat)
    ensures At(HappyPath(i), ["request", "headers", "Authorization"]) == Some(JStr("Bearer <VALID_TOKEN>"))
  {
    HappyRequestToken();
    assert ["request", "headers", "Authorization"] == ["request"] + ["headers", "Authorization"];
    CaseRequest(HappyPath(i), ["headers", "Authorization"]);
  }

  lemma HappyRequestToken()
    ensures At(HappyPathRequest, ["headers", "Authorization"]) == Some(JStr("Bearer <VALID_TOKEN>"))
  {
    var headers := HappyPathRequest.fields[2].1;
    assert At(headers, ["Authorization"]) == Some(JStr("Bearer <VALID_TOKEN>")) by {
      AtStep(headers, 1, ["Authorization"]);
    }
    assert At(HappyPathRequest, ["headers", "Authorization"]) == At(headers, ["Authorization"]) by {
      AtStep(HappyPathRequest, 2, ["headers", "Authorization"]);
    }
  }

  lemma HappyPathExpectsOk(i: nat)
    ensures At(HappyPath(i), ["expectedResponse", "statusCode"]) == Some(JNum(200))
  {
    assert At(HappyPathExpected, ["statusCode"]) == Some(JNum(200)) by {
      AtStep(HappyPathExpected, 0, ["statusCode"]);
    }
    AtStep(HappyPath(i), 4, ["expectedResponse", "statusCode"]);
  }

  lemma MissingAuthIdentity(i: nat)
    ensures At(MissingAuth(i), ["testId"]) == Some(JStr(TestId(i, "MissingAuth")))
    ensures At(MissingAuth(i), ["category"]) == Some(JStr("Authentication"))
  {
    assert At(MissingAuth(i), ["testId"]) == Some(JStr(TestId(i, "MissingAuth"))) by {
      AtStep(MissingAuth(i), 0, ["testId"]);
    }
    AtStep(MissingAuth(i), 2, ["category"]);
  }

  lemma MissingAuthHeaders(i: nat)
    ensures At(MissingAuth(i), ["request", "headers"]) == Some(JObj([("Content-Type", JStr("application/json"))]))
  {
    var headers := MissingAuthRequest.fields[2].1;
    assert At(MissingAuthRequest, ["headers"]) == Some(headers) by {
      AtStep(MissingAuthRequest, 2, ["headers"]);
    }
    assert ["request", "headers"] == ["request"] + ["headers"];
    CaseRequest(MissingAuth(i), ["headers"]);
  }

  lemma MissingAuthSendsNoToken(i: nat)
    ensures At(MissingAuth(i), ["request", "headers", "Authorization"]).None?
  {
    MissingRequestNoToken();
    assert ["request", "headers", "Authorization"] == ["request"] + ["headers", "Authorization"];
    CaseRequest(MissingAuth(i), ["headers", "Authorization"]);
  }

  lemma MissingRequestNoToken()
    ensures At(MissingAuthRequest, ["headers", "Authorization"]).None?
  {
    var headers := MissingAuthRequest.fields[2].1;
    assert At(headers, ["Authorization"]).None? by {
      assert Keys(headers.fields) == ["Content-Type"];
    }
    assert At(MissingAuthRequest, ["headers", "Authorization"]) == At(headers, ["Authorization"]) by {
      AtStep(MissingAuthRequest, 2, ["headers", "Authorization"]);
    }
  }

  lemma MissingAuthExpectsUnauthorized(i: nat)
    ensures At(MissingAuth(i), ["expectedResponse", "statusCode"]) == Some(JNum(401))
  {
    assert At(MissingAuthExpected, ["statusCode"]) == Some(JNum(401)) by {
      AtStep(MissingAuthExpected, 0, ["statusCode"]);
    }
    AtStep(MissingAuth(i), 4, ["expectedResponse", "statusCode"]);
  }

  lemma {:induction false} DigitRunsAgree(p: string, x: string, q: string, y: string)
    requires AllDigits(p) && AllDigits(q)
    requires x != [] && !IsDigit(x[0]) && y != [] && !IsDigit(y[0])
    requires p + x == q + y
    ensures p == q && x == y
  {
    // The first position past the shorter digit run holds a digit in one
    // string and a non-digit in the other unless the runs are equally long.
    var n := if |p| < |q| then |p| else |q|;
    assert (p + x)[n] == (q + y)[n];
    assert |p| == |q|;
    assert p == (p + x)[..|p|] && q == (q + y)[..|q|];
    assert x == (p + x)[|p|..] && y == (q + y)[|q|..];
  }

  /** Test ids never collide: the id gives back both the endpoint number and
      the scenario. */
  lemma TestIdsDistinct(i: nat, a: string, j: nat, b: string)
    requires TestId(i, a) == TestId(j, b)
    ensures i == j && a == b
  {
    var p, q := Pad3(i), Pad3(j);
    var x, y := "_Mock_" + a, "_Mock_" + b;
    assert TestId(i, a) == "TC" + (p + x) && TestId(j, b) == "TC" + (q + y);
    assert p + x == TestId(i, a)[2..] && q + y == TestId(j, b)[2..];
    DigitRunsAgree(p, x, q, y);
    assert a == x[6..] && b == y[6..];
  }

  /** The ids of the first endpoint's cases. */
  lemma FirstEndpointTestId(scenario: string)
    ensures TestId(1, scenario) == "TC001_Mock_" + scenario
  {
    Pad3OneDigit();
  }
}
