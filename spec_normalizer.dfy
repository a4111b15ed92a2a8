/** The OpenAPI normaliser of app/utils.py: flattens `paths` -> path item ->
    operation into one endpoint record per HTTP operation, with parameters
    sorted into location buckets, one request-body content type chosen by
    priority, and responses copied per status code.

    Each Python function that works by a loop is a method whose loop is
    proved to compute a fold function defined here (the specification); the
    properties the normaliser promises are lemmas about those functions.
    `None` is "an exception was raised", which `preprocess_openapi_spec`
    turns into the empty dict. */
module SpecNormalizer {
  import opened Wrappers
  import opened Json
  import opened Text

  const HttpMethods: seq<string> := ["get", "post", "put", "patch", "delete", "head", "options"]
  const UpperHttpMethods: seq<string> := ["GET", "POST", "PUT", "PATCH", "DELETE", "HEAD", "OPTIONS"]
  const ParameterLocations: seq<string> := ["path", "query", "header", "cookie"]
  const BodyContentTypes: seq<string> :=
    ["application/json", "application/x-www-form-urlencoded", "multipart/form-data"]

  /** The method keys the normaliser keeps, compared case-insensitively. */
  predicate IsHttpMethod(verb: string)
  {
    Lower(verb) in HttpMethods
  }

  /** The operationId used when the operation declares none: the method key
      as written, an underscore, and the path with every slash made an
      underscore. */
  function DefaultOperationId(verb: string, path: string): (id: string)
    ensures |id| == |verb| + 1 + |path| > 0
    ensures id[..|verb|] == verb && id[|verb|] == '_'
    ensures forall i :: 0 <= i < |path| ==>
      id[|verb| + 1 + i] == (if path[i] == '/' then '_' else path[i])
  {
    verb + "_" + ReplaceChar(path, '/', '_')
  }

  // ---------------------------------------------------------------------
  // extract_parameters

  /** The four empty buckets extract_parameters starts from. */
  const EmptyBuckets: Fields :=
    [("path", JObj([])), ("query", JObj([])), ("header", JObj([])), ("cookie", JObj([]))]

  /** Exactly the four location keys, in order, each holding a dict. */
  predicate ValidBuckets(b: Fields)
  {
    Keys(b) == ParameterLocations && forall i :: 0 <= i < |b| ==> b[i].1.JObj?
  }

  function ParamLocation(param: Fields): Json { Field(param, "in", JStr("query")) }

  function ParamName(param: Fields): Json { Field(param, "name", JStr("unknown")) }

  /** The record stored for one parameter; raises when `schema` is present
      but is not a dict. */
  function ParamInfo(param: Fields): (r: Option<Json>)
    ensures r.None? <==> !Field(param, "schema", JObj([])).JObj?
    ensures r.Some? ==> r.value.JObj? && Keys(r.value.fields) == ["type", "required", "description", "example", "schema"]
  {
    var schema := Field(param, "schema", JObj([]));
    match Get(schema, "type", JStr("string"))
    case None => None
    case Some(ty) =>
      Some(JObj([
        ("type", ty),
        ("required", Field(param, "required", JBool(false))),
        ("description", Field(param, "description", JStr(""))),
        ("example", Field(param, "example", JNull)),
        ("schema", schema)]))
  }

  /** The defaults of a parameter record: type from the schema, else
      "string"; not required; empty description; example None; empty schema. */
  lemma ParamInfoDefaults(param: Fields)
    requires ParamInfo(param).Some?
    ensures var info := ParamInfo(param).value.fields;
      && Field(info, "type", JNull) == Field(Field(param, "schema", JObj([])).fields, "type", JStr("string"))
      && (!HasKey(param, "schema") ==> Field(info, "type", JNull) == JStr("string") && Field(info, "schema", JNull) == JObj([]))
      && (!HasKey(param, "required") ==> Field(info, "required", JNull) == JBool(false))
      && (!HasKey(param, "description") ==> Field(info, "description", JNull) == JStr(""))
      && (!HasKey(param, "example") ==> Field(info, "example", JBool(true)) == JNull)
  {
    var schema := Field(param, "schema", JObj([]));
    var ty := Field(schema.fields, "type", JStr("string"));
    RecordLookups(ty, Field(param, "required", JBool(false)), Field(param, "description", JStr("")),
                  Field(param, "example", JNull), schema);
  }

  /** Each key of a parameter record finds its own value. */
  lemma RecordLookups(ty: Json, required: Json, description: Json, example: Json, schema: Json)
    ensures var info := [("type", ty), ("required", required), ("description", description),
                         ("example", example), ("schema", schema)];
      && Field(info, "type", JNull) == ty && Field(info, "required", JNull) == required
      && Field(info, "description", JNull) == description && Field(info, "schema", JNull) == schema
      && Field(info, "example", JBool(true)) == example
  {
    var info := [("type", ty), ("required", required), ("description", description),
                 ("example", example), ("schema", schema)];
    assert DistinctKeys(info);
    LookupAt(info, 0);
    LookupAt(info, 1);
    LookupAt(info, 2);
    LookupAt(info, 3);
    LookupAt(info, 4);
  }

  /** The bucket held under `loc`, as a dict's pairs. */
  function Bucket(b: Fields, loc: string): Fields
  {
    match Field(b, loc, JNull)
    case JObj(fs) => fs
    case _ => []
  }

  /** One iteration of the parameter loop: a location that is a list or dict
      is unhashable and raises, any other location that is not a bucket key
      drops the parameter, and a kept parameter is stored under its name,
      replacing one stored before under the same name. */
  function AddParameter(buckets: Fields, param: Json): Option<Fields>
  {
    if !param.JObj? then None
    else
      var loc := ParamLocation(param.fields);
      var name := ParamName(param.fields);
      match ParamInfo(param.fields)
      case None => None
      case Some(info) =>
        if loc.JArr? || loc.JObj? then None
        else if !(loc.JStr? && HasKey(buckets, loc.s)) then Some(buckets)
        else if !name.JStr? then None
        else match Field(buckets, loc.s, JNull)
          case JObj(bucket) => Some(Put(buckets, loc.s, JObj(Put(bucket, name.s, info))))
          case _ => None
  }

  function AddParameters(buckets: Fields, params: seq<Json>): Option<Fields>
    decreases |params|
  {
    if params == [] then Some(buckets)
    else match AddParameter(buckets, params[0])
      case None => None
      case Some(b) => AddParameters(b, params[1..])
  }

  /** What extract_parameters returns for an operation. */
  function ParametersOf(op: Fields): Option<Json>
  {
    match Iter(Field(op, "parameters", JArr([])))
    case None => None
    case Some(params) =>
      match AddParameters(EmptyBuckets, params)
      case None => None
      case Some(b) => Some(JObj(b))
  }

  method ExtractParameters(op: Fields) returns (r: Option<Json>)
    ensures r == ParametersOf(op)
  {
    var iterated := Iter(Field(op, "parameters", JArr([])));
    if iterated.None? {
      return None;
    }
    var params := iterated.value;
    var buckets := EmptyBuckets;
    var i := 0;
    while i < |params|
      invariant 0 <= i <= |params|
      invariant AddParameters(EmptyBuckets, params) == AddParameters(buckets, params[i..])
    {
      var param := params[i];
      assert params[i..][0] == param && params[i..][1..] == params[i + 1..];
      if !param.JObj? {
        return None;
      }
      var loc := ParamLocation(param.fields);
      var name := ParamName(param.fields);
      var info := ParamInfo(param.fields);
      if info.None? || loc.JArr? || loc.JObj? {
        return None;
      }
      if loc.JStr? && HasKey(buckets, loc.s) {
        if !name.JStr? {
          return None;
        }
        var bucket := Field(buckets, loc.s, JNull);
        if !bucket.JObj? {
          return None;
        }
        buckets := Put(buckets, loc.s, JObj(Put(bucket.fields, name.s, info.value)));
      }
      i := i + 1;
    }
    assert params[i..] == [];
    return Some(JObj(buckets));
  }

  // ---------------------------------------------------------------------
  // extract_request_body

  /** The loop over the priority list: the first content type `content`
      contains wins; `content[ct]` raises unless `content` is a dict, and
      `.get("schema")` unless the entry is a dict. */
  function SelectBody(body: Fields, content: Json, types: seq<string>): Option<Json>
    decreases |types|
  {
    if types == [] then Some(JObj([]))
    else match Contains(content, types[0])
      case None => None
      case Some(false) => SelectBody(body, content, types[1..])
      case Some(true) =>
        if !content.JObj? then None
        else match Get(Field(content.fields, types[0], JNull), "schema", JObj([]))
          case None => None
          case Some(schema) =>
            Some(JObj([
              ("content_type", JStr(types[0])),
              ("required", Field(body, "required", JBool(false))),
              ("schema", schema),
              ("description", Field(body, "description", JStr("")))]))
  }

  /** What extract_request_body returns for an operation. */
  function RequestBodyOf(op: Fields): Option<Json>
  {
    var body := Field(op, "requestBody", JObj([]));
    if !Truthy(body) then Some(JObj([]))
    else if !body.JObj? then None
    else SelectBody(body.fields, Field(body.fields, "content", JObj([])), BodyContentTypes)
  }

  method ExtractRequestBody(op: Fields) returns (r: Option<Json>)
    ensures r == RequestBodyOf(op)
  {
    var body := Field(op, "requestBody", JObj([]));
    if !Truthy(body) {
      return Some(JObj([]));
    }
    if !body.JObj? {
      return None;
    }
    var content := Field(body.fields, "content", JObj([]));
    var i := 0;
    while i < |BodyContentTypes|
      invariant 0 <= i <= |BodyContentTypes|
      invariant RequestBodyOf(op) == SelectBody(body.fields, content, BodyContentTypes[i..])
    {
      var contentType := BodyContentTypes[i];
      assert BodyContentTypes[i..][0] == contentType && BodyContentTypes[i..][1..] == BodyContentTypes[i + 1..];
      var present := Contains(content, contentType);
      if present.None? {
        return None;
      }
      if present.value {
        if !content.JObj? {
          return None;
        }
        var schema := Get(Field(content.fields, contentType, JNull), "schema", JObj([]));
        if schema.None? {
          return None;
        }
        return Some(JObj([
          ("content_type", JStr(contentType)),
          ("required", Field(body.fields, "required", JBool(false))),
          ("schema", schema.value),
          ("description", Field(body.fields, "description", JStr("")))]));
      }
      i := i + 1;
    }
    return Some(JObj([]));
  }

  // ---------------------------------------------------------------------
  // extract_responses

  /** `d[k] = f(v)` for every pair of `items` in turn, raising as soon as one
      `f` raises. */
  function PutEach(acc: Fields, items: Fields, f: Json -> Option<Json>): Option<Fields>
    decreases |items|
  {
    if items == [] then Some(acc)
    else match f(items[0].1)
      case None => None
      case Some(v) => PutEach(Put(acc, items[0].0, v), items[1..], f)
  }

  /** The copy of one content-type entry: only its schema and example. */
  function ContentEntry(info: Json): (r: Option<Json>)
    ensures r.None? <==> !info.JObj?
    ensures r.Some? ==> r.value.JObj? && Keys(r.value.fields) == ["schema", "example"]
  {
    if !info.JObj? then None
    else Some(JObj([
      ("schema", Field(info.fields, "schema", JObj([]))),
      ("example", Field(info.fields, "example", JNull))]))
  }

  function ResponseData(info: Json): Option<Json>
  {
    if !info.JObj? then None
    else
      var description := Field(info.fields, "description", JStr(""));
      var headers := Field(info.fields, "headers", JObj([]));
      match Items(Field(info.fields, "content", JObj([])))
      case None => None
      case Some(contents) =>
        match PutEach([], contents, ContentEntry)
        case None => None
        case Some(content) => Some(JObj([("description", description), ("headers", headers), ("content", JObj(content))]))
  }

  /** What extract_responses returns for an operation. */
  function ResponsesOf(op: Fields): Option<Json>
  {
    match Items(Field(op, "responses", JObj([])))
    case None => None
    case Some(responses) =>
      match PutEach([], responses, ResponseData)
      case None => None
      case Some(out) => Some(JObj(out))
  }

  method ExtractResponses(op: Fields) returns (r: Option<Json>)
    ensures r == ResponsesOf(op)
  {
    var declared := Items(Field(op, "responses", JObj([])));
    if declared.None? {
      return None;
    }
    var items := declared.value;
    var responses: Fields := [];
    var i := 0;
    while i < |items|
      invariant 0 <= i <= |items|
      invariant PutEach([], items, ResponseData) == PutEach(responses, items[i..], ResponseData)
    {
      var (statusCode, info) := items[i];
      assert items[i..][0] == (statusCode, info) && items[i..][1..] == items[i + 1..];
      if !info.JObj? {
        return None;
      }
      var description := Field(info.fields, "description", JStr(""));
      var headers := Field(info.fields, "headers", JObj([]));
      var contents := Items(Field(info.fields, "content", JObj([])));
      if contents.None? {
        return None;
      }
      var entries := contents.value;
      var content: Fields := [];
      var j := 0;
      while j < |entries|
        invariant 0 <= j <= |entries|
        invariant PutEach([], entries, ContentEntry) == PutEach(content, entries[j..], ContentEntry)
      {
        var (contentType, contentInfo) := entries[j];
        assert entries[j..][0] == (contentType, contentInfo) && entries[j..][1..] == entries[j + 1..];
        if !contentInfo.JObj? {
          return None;
        }
        content := Put(content, contentType, JObj([
          ("schema", Field(contentInfo.fields, "schema", JObj([]))),
          ("example", Field(contentInfo.fields, "example", JNull))]));
        j := j + 1;
      }
      assert entries[j..] == [];
      responses := Put(responses, statusCode, JObj([("description", description), ("headers", headers), ("content", JObj(content))]));
      i := i + 1;
    }
    assert items[i..] == [];
    return Some(JObj(responses));
  }

  // ---------------------------------------------------------------------
  // preprocess_openapi_spec

  /** The endpoint record for one kept operation; raises when the operation
      is not a dict or one of the three extractions raises. */
  function EndpointOf(path: string, verb: string, operation: Json): Option<Json>
  {
    if !operation.JObj? then None
    else
      var op := operation.fields;
      match (ParametersOf(op), RequestBodyOf(op), ResponsesOf(op))
      case (Some(parameters), Some(body), Some(responses)) =>
        Some(JObj(EndpointFields(path, verb, op, parameters, body, responses)))
      case _ => None
  }

  /** The nine fields of a normalized endpoint, in the order the source
      writes them, given the operation's three extractions. */
  function EndpointFields(path: string, verb: string, op: Fields, parameters: Json, body: Json, responses: Json): Fields
  {
    [ ("path", JStr(path)),
      ("method", JStr(Upper(verb))),
      ("operationId", Field(op, "operationId", JStr(DefaultOperationId(verb, path)))),
      ("summary", Field(op, "summary", JStr(""))),
      ("description", Field(op, "description", JStr(""))),
      ("parameters", parameters),
      ("requestBody", body),
      ("responses", responses),
      ("tags", Field(op, "tags", JArr([]))) ]
  }

  /** The inner loop: the endpoints of one path item appended to `acc`,
      `record` building each kept operation's endpoint. */
  function PathEndpoints(acc: seq<Json>, path: string, methods: Fields, record: (string, string, Json) -> Option<Json>): Option<seq<Json>>
    decreases |methods|
  {
    if methods == [] then Some(acc)
    else if !IsHttpMethod(methods[0].0) then PathEndpoints(acc, path, methods[1..], record)
    else match record(path, methods[0].0, methods[0].1)
      case None => None
      case Some(e) => PathEndpoints(acc + [e], path, methods[1..], record)
  }

  /** The outer loop: the endpoints of every path item appended to `acc`;
      a path item that is not a dict raises. */
  function AllEndpoints(acc: seq<Json>, paths: Fields, record: (string, string, Json) -> Option<Json>): Option<seq<Json>>
    decreases |paths|
  {
    if paths == [] then Some(acc)
    else match Items(paths[0].1)
      case None => None
      case Some(methods) =>
        match PathEndpoints(acc, paths[0].0, methods, record)
        case None => None
        case Some(acc') => AllEndpoints(acc', paths[1..], record)
  }

  /** What preprocess_openapi_spec returns: `{}` for a falsy spec and for any
      raised exception, otherwise info, servers and the endpoint list. */
  function Preprocess(spec: Json): (r: Json)
    ensures !Truthy(spec) ==> r == JObj([])
    ensures r == JObj([]) || (r.JObj? && Keys(r.fields) == ["info", "servers", "endpoints"] && r.fields[2].1.JArr?)
    ensures r != JObj([]) ==>
      (spec.JObj? && r.JObj? && |r.fields| == 3
       && r.fields[0].1 == Field(spec.fields, "info", JObj([]))
       && r.fields[1].1 == Field(spec.fields, "servers", JArr([])))
    ensures Truthy(spec) && spec.JObj? && Field(spec.fields, "paths", JObj([])) == JObj([]) ==>
      r == JObj([("info", Field(spec.fields, "info", JObj([]))),
                 ("servers", Field(spec.fields, "servers", JArr([]))),
                 ("endpoints", JArr([]))])
  {
    if !Truthy(spec) || !spec.JObj? then JObj([])
    else match Items(Field(spec.fields, "paths", JObj([])))
      case None => JObj([])
      case Some(paths) =>
        match AllEndpoints([], paths, EndpointOf)
        case None => JObj([])
        case Some(endpoints) =>
          JObj([("info", Field(spec.fields, "info", JObj([]))),
                ("servers", Field(spec.fields, "servers", JArr([]))),
                ("endpoints", JArr(endpoints))])
  }

  method PreprocessOpenApiSpec(spec: Json) returns (r: Json)
    ensures r == Preprocess(spec)
  {
    if !Truthy(spec) || !spec.JObj? {
      return JObj([]);
    }
    var info := Field(spec.fields, "info", JObj([]));
    var servers := Field(spec.fields, "servers", JArr([]));
    var endpoints: seq<Json> := [];
    var declared := Items(Field(spec.fields, "paths", JObj([])));
    if declared.None? {
      return JObj([]);
    }
    var paths := declared.value;
    var i := 0;
    while i < |paths|
      invariant 0 <= i <= |paths|
      invariant AllEndpoints([], paths, EndpointOf) == AllEndpoints(endpoints, paths[i..], EndpointOf)
    {
      var (path, pathItem) := paths[i];
      assert paths[i..][0] == (path, pathItem) && paths[i..][1..] == paths[i + 1..];
      if !pathItem.JObj? {
        return JObj([]);
      }
      var methods := pathItem.fields;
      var j := 0;
      while j < |methods|
        invariant 0 <= j <= |methods|
        invariant AllEndpoints([], paths, EndpointOf) == match PathEndpoints(endpoints, path, methods[j..], EndpointOf)
          case None => None
          case Some(acc) => AllEndpoints(acc, paths[i + 1..], EndpointOf)
      {
        var (verb, operation) := methods[j];
        assert methods[j..][0] == (verb, operation) && methods[j..][1..] == methods[j + 1..];
        if IsHttpMethod(verb) {
          if !operation.JObj? {
            return JObj([]);
          }
          var op := operation.fields;
          var parameters := ExtractParameters(op);
          var body := ExtractRequestBody(op);
          var responses := ExtractResponses(op);
          if parameters.None? || body.None? || responses.None? {
            return JObj([]);
          }
          var endpoint := JObj([
            ("path", JStr(path)),
            ("method", JStr(Upper(verb))),
            ("operationId", Field(op, "operationId", JStr(DefaultOperationId(verb, path)))),
            ("summary", Field(op, "summary", JStr(""))),
            ("description", Field(op, "description", JStr(""))),
            ("parameters", parameters.value),
            ("requestBody", body.value),
            ("responses", responses.value),
            ("tags", Field(op, "tags", JArr([])))]);
          endpoints := endpoints + [endpoint];
        }
        j := j + 1;
      }
      assert methods[j..] == [];
      i := i + 1;
    }
    assert paths[i..] == [];
    return JObj([("info", info), ("servers", servers), ("endpoints", JArr(endpoints))]);
  }

  /** validate_openapi_spec: a version key, an info key, and a non-empty
      paths entry.  `in` on a list or str tests membership or a substring and
      indexing it by a string raises, so for those the answer is false. */
  function ValidateOpenApiSpec(spec: Json): (ok: bool)
    ensures ok <==> spec.JObj?
                    && (HasKey(spec.fields, "openapi") || HasKey(spec.fields, "swagger"))
                    && HasKey(spec.fields, "info")
                    && HasKey(spec.fields, "paths")
                    && Truthy(Field(spec.fields, "paths", JNull))
  {
    match (Contains(spec, "openapi"), Contains(spec, "swagger"))
    case (Some(hasOpenApi), Some(hasSwagger)) =>
      if !hasOpenApi && !hasSwagger then false
      else if Contains(spec, "info") != Some(true) then false
      else if Contains(spec, "paths") != Some(true) then false
      else if !spec.JObj? then false
      else Truthy(Field(spec.fields, "paths", JNull))
    case _ => false
  }
}
