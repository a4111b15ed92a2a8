/** What the normaliser of app/utils.py guarantees, proved about the fold
    functions its methods are shown to compute. */
module NormalizerProperties {
  import opened Wrappers
  import opened Json
  import opened Text
  import opened SpecNormalizer

  // ---------------------------------------------------------------------
  // Parameters

  lemma EmptyBucketsValid()
    ensures ValidBuckets(EmptyBuckets)
  {
    assert Keys(EmptyBuckets) == ParameterLocations;
  }

  /** Every bucket starts empty. */
  lemma EmptyBucketsHoldNothing(loc: string)
    ensures Bucket(EmptyBuckets, loc) == []
  {
    if HasKey(EmptyBuckets, loc) {
      var i :| 0 <= i < |EmptyBuckets| && EmptyBuckets[i] == (loc, Lookup(EmptyBuckets, loc).value);
      assert EmptyBuckets[i].1 == JObj([]);
    }
  }

  /** One parameter step keeps the four location buckets. */
  lemma AddParameterKeepsBuckets(b: Fields, param: Json)
    requires ValidBuckets(b) && AddParameter(b, param).Some?
    ensures ValidBuckets(AddParameter(b, param).value)
  {
    var b' := AddParameter(b, param).value;
    if b' != b {
      var loc := ParamLocation(param.fields).s;
      var bucket := Field(b, loc, JNull);
      var name := ParamName(param.fields).s;
      var info := ParamInfo(param.fields).value;
      var v := JObj(Put(bucket.fields, name, info));
      assert b' == Put(b, loc, v);
      PutKeys(b, loc, v);
      forall i | 0 <= i < |b'| ensures b'[i].1.JObj? {
        PutValues(b, loc, v, i);
      }
    }
  }

  lemma {:induction false} AddParametersKeepsBuckets(b: Fields, params: seq<Json>)
    requires ValidBuckets(b) && AddParameters(b, params).Some?
    ensures ValidBuckets(AddParameters(b, params).value)
    decreases |params|
  {
    if params != [] {
      AddParameterKeepsBuckets(b, params[0]);
      AddParametersKeepsBuckets(AddParameter(b, params[0]).value, params[1..]);
    }
  }

  /** extract_parameters always returns exactly the four location buckets
      path, query, header and cookie, each a dict. */
  lemma ParametersShape(op: Fields)
    requires ParametersOf(op).Some?
    ensures var r := ParametersOf(op).value;
      r.JObj? && Keys(r.fields) == ParameterLocations && forall i :: 0 <= i < |r.fields| ==> r.fields[i].1.JObj?
  {
    EmptyBucketsValid();
    var params := Iter(Field(op, "parameters", JArr([]))).value;
    AddParametersKeepsBuckets(EmptyBuckets, params);
  }

  /** The parameter is a dict whose location (default "query") is `loc` and
      whose name (default "unknown") is `name`. */
  predicate Placed(param: Json, loc: string, name: string)
  {
    param.JObj? && ParamLocation(param.fields) == JStr(loc) && ParamName(param.fields) == JStr(name)
  }

  /** Reference definition: the record of the LAST parameter placed at
      (`loc`, `name`). */
  function LastPlaced(params: seq<Json>, loc: string, name: string): Option<Json>
    decreases |params|
  {
    if params == [] then None
    else match LastPlaced(params[1..], loc, name)
      case Some(info) => Some(info)
      case None => if Placed(params[0], loc, name) then ParamInfo(params[0].fields) else None
  }

  lemma AddParameterPlacement(b: Fields, param: Json, loc: string, name: string)
    requires ValidBuckets(b) && loc in ParameterLocations && AddParameter(b, param).Some?
    ensures Lookup(Bucket(AddParameter(b, param).value, loc), name)
         == if Placed(param, loc, name) then ParamInfo(param.fields) else Lookup(Bucket(b, loc), name)
  {
    var b' := AddParameter(b, param).value;
    var l := ParamLocation(param.fields);
    if l.JStr? && HasKey(b, l.s) {
      var bucket := Field(b, l.s, JNull).fields;
      var n := ParamName(param.fields).s;
      var info := ParamInfo(param.fields).value;
      var v := JObj(Put(bucket, n, info));
      assert b' == Put(b, l.s, v);
      PutLookup(b, l.s, v, loc);
      PutLookup(bucket, n, info, name);
    } else {
      assert HasKey(b, loc);
    }
  }

  lemma {:induction false} AddParametersPlacement(b: Fields, params: seq<Json>, loc: string, name: string)
    requires ValidBuckets(b) && loc in ParameterLocations && AddParameters(b, params).Some?
    ensures Lookup(Bucket(AddParameters(b, params).value, loc), name)
         == match LastPlaced(params, loc, name)
            case Some(info) => Some(info)
            case None => Lookup(Bucket(b, loc), name)
    decreases |params|
  {
    if params != [] {
      var b1 := AddParameter(b, params[0]).value;
      AddParameterPlacement(b, params[0], loc, name);
      AddParameterKeepsBuckets(b, params[0]);
      AddParametersPlacement(b1, params[1..], loc, name);
    }
  }

  /** Each parameter lands in the bucket named by its location under its
      name, a later parameter with the same location and name replaces an
      earlier one, and nothing else is found in a bucket. */
  lemma ParameterPlacement(op: Fields, loc: string, name: string)
    requires loc in ParameterLocations && ParametersOf(op).Some?
    ensures Lookup(Bucket(ParametersOf(op).value.fields, loc), name)
         == LastPlaced(Iter(Field(op, "parameters", JArr([]))).value, loc, name)
  {
    EmptyBucketsValid();
    var params := Iter(Field(op, "parameters", JArr([]))).value;
    AddParametersPlacement(EmptyBuckets, params, loc, name);
    EmptyBucketsHoldNothing(loc);
  }

  /** The parameters that make the parameter loop raise: one that is not a
      dict, one whose schema is not a dict, one whose location is unhashable,
      and one bound for a bucket under a name that is not a str. */
  predicate ParamRaises(param: Json)
  {
    || !param.JObj?
    || ParamInfo(param.fields).None?
    || ParamLocation(param.fields).JArr? || ParamLocation(param.fields).JObj?
    || (ParamLocation(param.fields).JStr? && ParamLocation(param.fields).s in ParameterLocations
        && !ParamName(param.fields).JStr?)
  }

  lemma AddParameterFails(b: Fields, param: Json)
    requires ValidBuckets(b)
    ensures AddParameter(b, param).None? <==> ParamRaises(param)
  {
    if param.JObj? {
      var loc := ParamLocation(param.fields);
      if loc.JStr? && HasKey(b, loc.s) {
        var i :| 0 <= i < |b| && b[i] == (loc.s, Lookup(b, loc.s).value);
        assert b[i].1.JObj?;
      }
    }
  }

  lemma {:induction false} AddParametersFail(b: Fields, params: seq<Json>)
    requires ValidBuckets(b)
    ensures AddParameters(b, params).None? <==> exists i :: 0 <= i < |params| && ParamRaises(params[i])
    decreases |params|
  {
    if params != [] {
      AddParameterFails(b, params[0]);
      if !ParamRaises(params[0]) {
        AddParameterKeepsBuckets(b, params[0]);
        AddParametersFail(AddParameter(b, params[0]).value, params[1..]);
        if exists i :: 0 <= i < |params| && ParamRaises(params[i]) {
          var i :| 0 <= i < |params| && ParamRaises(params[i]);
          assert params[1..][i - 1] == params[i];
        }
        if exists i :: 0 <= i < |params[1..]| && ParamRaises(params[1..][i]) {
          var i :| 0 <= i < |params[1..]| && ParamRaises(params[1..][i]);
          assert params[i + 1] == params[1..][i];
        }
      }
    }
  }

  /** extract_parameters raises exactly when `parameters` is not iterable or
      one of the parameters raises. */
  lemma ParametersFail(op: Fields)
    ensures ParametersOf(op).None? <==>
      match Iter(Field(op, "parameters", JArr([])))
      case None => true
      case Some(params) => exists i :: 0 <= i < |params| && ParamRaises(params[i])
  {
    match Iter(Field(op, "parameters", JArr([])))
    case None =>
    case Some(params) =>
      EmptyBucketsValid();
      AddParametersFail(EmptyBuckets, params);
  }

  // ---------------------------------------------------------------------
  // Request body

  /** Reference definition: the first of `types` that `content` holds. */
  function FirstPresent(content: Fields, types: seq<string>): (r: Option<string>)
    ensures r.None? <==> forall i :: 0 <= i < |types| ==> !HasKey(content, types[i])
    ensures r.Some? ==> exists i :: 0 <= i < |types| && types[i] == r.value && HasKey(content, r.value)
                                    && forall j :: 0 <= j < i ==> !HasKey(content, types[j])
    decreases |types|
  {
    if types == [] then None
    else if HasKey(content, types[0]) then Some(types[0])
    else
      var r := FirstPresent(content, types[1..]);
      assert forall i :: 1 <= i < |types| ==> types[i] == types[1..][i - 1];
      assert r.Some? ==> exists i :: 0 <= i < |types| && types[i] == r.value && HasKey(content, r.value)
                                     && forall j :: 0 <= j < i ==> !HasKey(content, types[j]) by {
        if r.Some? {
          var i :| 0 <= i < |types[1..]| && types[1..][i] == r.value && HasKey(content, r.value)
                   && forall j :: 0 <= j < i ==> !HasKey(content, types[1..][j]);
          assert forall j :: 0 <= j < i + 1 ==> !HasKey(content, types[j]) by {
            forall j | 0 <= j < i + 1 ensures !HasKey(content, types[j]) {
              if j > 0 { assert types[j] == types[1..][j - 1]; }
            }
          }
        }
      }
      r
  }

  lemma {:induction false} SelectBodyPriority(body: Fields, content: Fields, types: seq<string>)
    ensures SelectBody(body, JObj(content), types)
         == match FirstPresent(content, types)
            case None => Some(JObj([]))
            case Some(ct) =>
              match Get(Field(content, ct, JNull), "schema", JObj([]))
              case None => None
              case Some(schema) =>
                Some(JObj([("content_type", JStr(ct)), ("required", Field(body, "required", JBool(false))),
                           ("schema", schema), ("description", Field(body, "description", JStr("")))]))
    decreases |types|
  {
    if types != [] && !HasKey(content, types[0]) {
      SelectBodyPriority(body, content, types[1..]);
    }
  }

  /** extract_request_body: `{}` when no body is declared (or it is falsy)
      and when none of the three known content types is present; otherwise
      the first present type in the order json, form-urlencoded, multipart,
      whatever order the document declares them in, with `required`
      defaulting to false and the schema of that type's entry. */
  lemma RequestBodySelection(op: Fields)
    ensures !Truthy(Field(op, "requestBody", JObj([]))) ==> RequestBodyOf(op) == Some(JObj([]))
    ensures var body := Field(op, "requestBody", JObj([]));
      Truthy(body) && body.JObj? && Field(body.fields, "content", JObj([])).JObj? ==>
        var content := Field(body.fields, "content", JObj([])).fields;
        match FirstPresent(content, BodyContentTypes)
        case None => RequestBodyOf(op) == Some(JObj([]))
        case Some(ct) =>
          var entry := Field(content, ct, JNull);
          && (entry.JObj? ==> RequestBodyOf(op) == Some(JObj([
                ("content_type", JStr(ct)),
                ("required", Field(body.fields, "required", JBool(false))),
                ("schema", Field(entry.fields, "schema", JObj([]))),
                ("description", Field(body.fields, "description", JStr("")))])))
          && (!entry.JObj? ==> RequestBodyOf(op).None?)
  {
    var body := Field(op, "requestBody", JObj([]));
    if Truthy(body) && body.JObj? && Field(body.fields, "content", JObj([])).JObj? {
      SelectBodyPriority(body.fields, Field(body.fields, "content", JObj([])).fields, BodyContentTypes);
    }
  }

  // ---------------------------------------------------------------------
  // Responses

  /** Copying a dict entry by entry into a dict with none of its keys keeps
      the keys in order and transforms each value in place. */
  lemma {:induction false} PutEachPointwise(acc: Fields, items: Fields, f: Json -> Option<Json>)
    requires DistinctKeys(items) && forall i :: 0 <= i < |items| ==> !HasKey(acc, items[i].0)
    requires PutEach(acc, items, f).Some?
    ensures var out := PutEach(acc, items, f).value;
      && |out| == |acc| + |items| && out[..|acc|] == acc
      && forall i :: 0 <= i < |items| ==> out[|acc| + i].0 == items[i].0 && f(items[i].1) == Some(out[|acc| + i].1)
    decreases |items|
  {
    if items != [] {
      var v := f(items[0].1).value;
      PutFresh(acc, items[0].0, v);
      var acc' := acc + [(items[0].0, v)];
      assert Keys(acc') == Keys(acc) + [items[0].0];
      forall i | 0 <= i < |items[1..]| ensures !HasKey(acc', items[1..][i].0) {
        assert items[1..][i] == items[i + 1];
      }
      PutEachPointwise(acc', items[1..], f);
      var out := PutEach(acc, items, f).value;
      assert out == PutEach(acc', items[1..], f).value;
      assert out[..|acc|] == out[..|acc'|][..|acc|];
      forall i | 0 <= i < |items| ensures out[|acc| + i].0 == items[i].0 && f(items[i].1) == Some(out[|acc| + i].1) {
        if i > 0 {
          assert items[i] == items[1..][i - 1];
          assert |acc| + i == |acc'| + (i - 1);
        } else {
          assert out[|acc|] == out[..|acc'|][|acc|];
        }
      }
    }
  }

  /** A copy raises exactly when one of the entries cannot be copied. */
  lemma {:induction false} PutEachFails(acc: Fields, items: Fields, f: Json -> Option<Json>)
    ensures PutEach(acc, items, f).None? <==> exists i :: 0 <= i < |items| && f(items[i].1).None?
    decreases |items|
  {
    if items != [] {
      if f(items[0].1).Some? {
        PutEachFails(Put(acc, items[0].0, f(items[0].1).value), items[1..], f);
        if exists i :: 0 <= i < |items| && f(items[i].1).None? {
          var i :| 0 <= i < |items| && f(items[i].1).None?;
          assert items[1..][i - 1] == items[i];
        }
        if exists i :: 0 <= i < |items[1..]| && f(items[1..][i].1).None? {
          var i :| 0 <= i < |items[1..]| && f(items[1..][i].1).None?;
          assert items[i + 1] == items[1..][i];
        }
      }
    }
  }

  /** One response record holds exactly description, headers and content,
      and its content has the declared content types in order, each reduced
      to its schema and example. */
  lemma ResponseDataShape(info: Json)
    requires ResponseData(info).Some?
    requires DistinctKeys(Items(Field(info.fields, "content", JObj([]))).value)
    ensures var d := ResponseData(info).value;
      var declared := Items(Field(info.fields, "content", JObj([]))).value;
      && d.JObj? && Keys(d.fields) == ["description", "headers", "content"]
      && d.fields[2].1.JObj?
      && var content := d.fields[2].1.fields;
      && Keys(content) == Keys(declared)
      && forall i :: 0 <= i < |declared| ==>
           ContentEntry(declared[i].1) == Some(content[i].1) && Keys(content[i].1.fields) == ["schema", "example"]
  {
    var declared := Items(Field(info.fields, "content", JObj([]))).value;
    PutEachPointwise([], declared, ContentEntry);
  }

  /** extract_responses keeps the declared status codes in order, and holds
      under each the copy of that code's response. */
  lemma ResponsesCopied(op: Fields)
    requires ResponsesOf(op).Some?
    requires DistinctKeys(Items(Field(op, "responses", JObj([]))).value)
    ensures var r := ResponsesOf(op).value;
      var declared := Items(Field(op, "responses", JObj([]))).value;
      && r.JObj? && Keys(r.fields) == Keys(declared)
      && forall i :: 0 <= i < |declared| ==> ResponseData(declared[i].1) == Some(r.fields[i].1)
  {
    var declared := Items(Field(op, "responses", JObj([]))).value;
    PutEachPointwise([], declared, ResponseData);
  }

  /** extract_responses raises exactly when `responses` is not a dict or one
      of its responses cannot be copied. */
  lemma ResponsesFail(op: Fields)
    ensures ResponsesOf(op).None? <==>
      match Items(Field(op, "responses", JObj([])))
      case None => true
      case Some(declared) => exists i :: 0 <= i < |declared| && ResponseData(declared[i].1).None?
  {
    match Items(Field(op, "responses", JObj([])))
    case None =>
    case Some(declared) => PutEachFails([], declared, ResponseData);
  }

  // ---------------------------------------------------------------------
  // Endpoints

  /** Reference definition: the (path, method key, operation) triples the
      normaliser keeps, in path-then-method iteration order. */
  function KeptIn(path: string, methods: Fields): seq<(string, string, Json)>
    decreases |methods|
  {
    if methods == [] then []
    else (if IsHttpMethod(methods[0].0) then [(path, methods[0].0, methods[0].1)] else [])
         + KeptIn(path, methods[1..])
  }

  function KeptOperations(paths: Fields): seq<(string, string, Json)>
    decreases |paths|
  {
    if paths == [] then []
    else (match paths[0].1 case JObj(methods) => KeptIn(paths[0].0, methods) case _ => [])
         + KeptOperations(paths[1..])
  }

  /** `endpoints` are the records `record` builds for `ops`, one for one. */
  predicate Realises(endpoints: seq<Json>, ops: seq<(string, string, Json)>, record: (string, string, Json) -> Option<Json>)
  {
    |endpoints| == |ops| && forall i :: 0 <= i < |ops| ==> record(ops[i].0, ops[i].1, ops[i].2) == Some(endpoints[i])
  }

  lemma RealisesAppend(e1: seq<Json>, o1: seq<(string, string, Json)>, e2: seq<Json>, o2: seq<(string, string, Json)>,
                       record: (string, string, Json) -> Option<Json>)
    requires Realises(e1, o1, record) && Realises(e2, o2, record)
    ensures Realises(e1 + e2, o1 + o2, record)
  {
    forall i | 0 <= i < |o1 + o2|
      ensures record((o1 + o2)[i].0, (o1 + o2)[i].1, (o1 + o2)[i].2) == Some((e1 + e2)[i])
    {
      if i >= |o1| {
        assert (o1 + o2)[i] == o2[i - |o1|] && (e1 + e2)[i] == e2[i - |e1|];
      }
    }
  }

  lemma {:induction false} PathEndpointsOrder(acc: seq<Json>, path: string, methods: Fields, record: (string, string, Json) -> Option<Json>)
    requires PathEndpoints(acc, path, methods, record).Some?
    ensures var out := PathEndpoints(acc, path, methods, record).value;
      |out| >= |acc| && out[..|acc|] == acc && Realises(out[|acc|..], KeptIn(path, methods), record)
    decreases |methods|
  {
    var out := PathEndpoints(acc, path, methods, record).value;
    if methods == [] {
      assert out[|acc|..] == [];
    } else if !IsHttpMethod(methods[0].0) {
      PathEndpointsOrder(acc, path, methods[1..], record);
    } else {
      var e := record(path, methods[0].0, methods[0].1).value;
      PathEndpointsOrder(acc + [e], path, methods[1..], record);
      assert out[..|acc|] == out[..|acc| + 1][..|acc|];
      assert out[|acc|..] == [e] + out[|acc| + 1..];
      RealisesAppend([e], [(path, methods[0].0, methods[0].1)], out[|acc| + 1..], KeptIn(path, methods[1..]), record);
    }
  }

  lemma {:induction false} AllEndpointsOrder(acc: seq<Json>, paths: Fields, record: (string, string, Json) -> Option<Json>)
    requires AllEndpoints(acc, paths, record).Some?
    ensures var out := AllEndpoints(acc, paths, record).value;
      |out| >= |acc| && out[..|acc|] == acc && Realises(out[|acc|..], KeptOperations(paths), record)
    decreases |paths|
  {
    var out := AllEndpoints(acc, paths, record).value;
    if paths == [] {
      assert out[|acc|..] == [];
    } else {
      var methods := paths[0].1.fields;
      var mid := PathEndpoints(acc, paths[0].0, methods, record).value;
      PathEndpointsOrder(acc, paths[0].0, methods, record);
      AllEndpointsOrder(mid, paths[1..], record);
      assert out[..|acc|] == out[..|mid|][..|acc|];
      assert out[|acc|..] == mid[|acc|..] + out[|mid|..];
      RealisesAppend(mid[|acc|..], KeptIn(paths[0].0, methods), out[|mid|..], KeptOperations(paths[1..]), record);
    }
  }

  /** A normalised spec holds one endpoint per kept (path, method)
      operation, in path-then-method iteration order, each the record of its
      own operation; method keys outside the seven verbs yield nothing. */
  lemma PreprocessEndpoints(spec: Json)
    requires Preprocess(spec) != JObj([])
    ensures spec.JObj? && Field(spec.fields, "paths", JObj([])).JObj?
    ensures var endpoints := Preprocess(spec).fields[2].1.items;
      Realises(endpoints, KeptOperations(Field(spec.fields, "paths", JObj([])).fields), EndpointOf)
  {
    var paths := Field(spec.fields, "paths", JObj([])).fields;
    AllEndpointsOrder([], paths, EndpointOf);
  }

  /** Some operation of `ops` has no record: building it raises. */
  predicate SomeRecordFails(ops: seq<(string, string, Json)>, record: (string, string, Json) -> Option<Json>)
  {
    exists k :: 0 <= k < |ops| && record(ops[k].0, ops[k].1, ops[k].2).None?
  }

  /** Some path item is not a dict, so it has no `items()`. */
  predicate SomeItemNotDict(paths: Fields)
  {
    exists i :: 0 <= i < |paths| && !paths[i].1.JObj?
  }

  lemma SomeRecordFailsAppend(o1: seq<(string, string, Json)>, o2: seq<(string, string, Json)>,
                              record: (string, string, Json) -> Option<Json>)
    ensures SomeRecordFails(o1 + o2, record) <==> SomeRecordFails(o1, record) || SomeRecordFails(o2, record)
  {
    if SomeRecordFails(o1 + o2, record) {
      var k :| 0 <= k < |o1 + o2| && record((o1 + o2)[k].0, (o1 + o2)[k].1, (o1 + o2)[k].2).None?;
      if k >= |o1| {
        assert (o1 + o2)[k] == o2[k - |o1|];
      } else {
        assert (o1 + o2)[k] == o1[k];
      }
    }
    if SomeRecordFails(o2, record) {
      var k :| 0 <= k < |o2| && record(o2[k].0, o2[k].1, o2[k].2).None?;
      assert (o1 + o2)[|o1| + k] == o2[k];
    }
    if SomeRecordFails(o1, record) {
      var k :| 0 <= k < |o1| && record(o1[k].0, o1[k].1, o1[k].2).None?;
      assert (o1 + o2)[k] == o1[k];
    }
  }

  /** The inner loop raises exactly when the record of one of the path
      item's kept operations raises. */
  lemma {:induction false} PathEndpointsFails(acc: seq<Json>, path: string, methods: Fields, record: (string, string, Json) -> Option<Json>)
    ensures PathEndpoints(acc, path, methods, record).None? <==> SomeRecordFails(KeptIn(path, methods), record)
    decreases |methods|
  {
    if methods != [] {
      var t := (path, methods[0].0, methods[0].1);
      var head := if IsHttpMethod(methods[0].0) then [t] else [];
      SomeRecordFailsAppend(head, KeptIn(path, methods[1..]), record);
      var e := record(path, methods[0].0, methods[0].1);
      if !IsHttpMethod(methods[0].0) {
        PathEndpointsFails(acc, path, methods[1..], record);
      } else if e.Some? {
        PathEndpointsFails(acc + [e.value], path, methods[1..], record);
        assert !SomeRecordFails(head, record);
      } else {
        assert head[0] == t;
      }
    }
  }

  /** The outer loop raises exactly when some path item is not a dict or the
      record of one of the kept operations raises. */
  lemma {:induction false} AllEndpointsFails(acc: seq<Json>, paths: Fields, record: (string, string, Json) -> Option<Json>)
    ensures AllEndpoints(acc, paths, record).None? <==>
      SomeItemNotDict(paths) || SomeRecordFails(KeptOperations(paths), record)
    decreases |paths|
  {
    if paths != [] {
      if !paths[0].1.JObj? {
        assert !paths[0].1.JObj?;
      } else {
        var methods := paths[0].1.fields;
        var rest := paths[1..];
        PathEndpointsFails(acc, paths[0].0, methods, record);
        SomeRecordFailsAppend(KeptIn(paths[0].0, methods), KeptOperations(rest), record);
        assert SomeItemNotDict(paths) <==> SomeItemNotDict(rest) by {
          if SomeItemNotDict(paths) {
            var i :| 0 <= i < |paths| && !paths[i].1.JObj?;
            assert rest[i - 1] == paths[i];
          }
          if SomeItemNotDict(rest) {
            var i :| 0 <= i < |rest| && !rest[i].1.JObj?;
            assert paths[i + 1] == rest[i];
          }
        }
        match PathEndpoints(acc, paths[0].0, methods, record)
        case None =>
        case Some(mid) => AllEndpointsFails(mid, rest, record);
      }
    }
  }

  /** One endpoint record raises exactly when the operation is not a dict or
      one of its three extractions raises. */
  lemma EndpointFails(path: string, verb: string, operation: Json)
    ensures EndpointOf(path, verb, operation).None? <==>
      !operation.JObj? || ParametersOf(operation.fields).None?
      || RequestBodyOf(operation.fields).None? || ResponsesOf(operation.fields).None?
  {
  }

  /** preprocess_openapi_spec returns `{}` exactly when the spec is falsy or
      not a dict, `paths` is not a dict, a path item is not a dict, or the
      record of one kept operation raises; every other spec yields info,
      servers and its endpoints. */
  lemma PreprocessFails(spec: Json)
    ensures Preprocess(spec) == JObj([]) <==>
      || !Truthy(spec) || !spec.JObj?
      || match Items(Field(spec.fields, "paths", JObj([])))
         case None => true
         case Some(paths) => SomeItemNotDict(paths) || SomeRecordFails(KeptOperations(paths), EndpointOf)
  {
    if Truthy(spec) && spec.JObj? {
      match Items(Field(spec.fields, "paths", JObj([])))
      case None =>
      case Some(paths) => AllEndpointsFails([], paths, EndpointOf);
    }
  }

  /** The shape of one endpoint record, key by key: the path key, the
      upper-cased method key, the operationId kept verbatim or derived from
      method and path, summary/description defaulting to "" and tags to [],
      and the three extractions of the operation. */
  lemma EndpointRecord(path: string, verb: string, operation: Json)
    requires EndpointOf(path, verb, operation).Some?
    ensures operation.JObj?
    ensures var e := EndpointOf(path, verb, operation).value.fields;
      var op := operation.fields;
      && |e| == 9
      && e[0] == ("path", JStr(path))
      && e[1] == ("method", JStr(Upper(verb)))
      && e[2] == ("operationId", match Lookup(op, "operationId")
                                 case Some(id) => id
                                 case None => JStr(DefaultOperationId(verb, path)))
      && e[3] == ("summary", if HasKey(op, "summary") then Field(op, "summary", JNull) else JStr(""))
      && e[4] == ("description", if HasKey(op, "description") then Field(op, "description", JNull) else JStr(""))
      && e[5].0 == "parameters" && Some(e[5].1) == ParametersOf(op)
      && e[6].0 == "requestBody" && Some(e[6].1) == RequestBodyOf(op)
      && e[7].0 == "responses" && Some(e[7].1) == ResponsesOf(op)
      && e[8] == ("tags", if HasKey(op, "tags") then Field(op, "tags", JNull) else JArr([]))
  {
    var op := operation.fields;
    var parameters, body, responses := ParametersOf(op).value, RequestBodyOf(op).value, ResponsesOf(op).value;
    assert EndpointOf(path, verb, operation).value.fields == EndpointFields(path, verb, op, parameters, body, responses);
    FieldsDefaults(path, verb, op, parameters, body, responses);
  }

  /** The record's fields by position, with `.get`'s defaults spelled out. */
  lemma FieldsDefaults(path: string, verb: string, op: Fields, parameters: Json, body: Json, responses: Json)
    ensures var e := EndpointFields(path, verb, op, parameters, body, responses);
      && |e| == 9
      && e[0] == ("path", JStr(path))
      && e[1] == ("method", JStr(Upper(verb)))
      && e[2] == ("operationId", match Lookup(op, "operationId")
                                 case Some(id) => id
                                 case None => JStr(DefaultOperationId(verb, path)))
      && e[3] == ("summary", if HasKey(op, "summary") then Field(op, "summary", JNull) else JStr(""))
      && e[4] == ("description", if HasKey(op, "description") then Field(op, "description", JNull) else JStr(""))
      && e[5] == ("parameters", parameters) && e[6] == ("requestBody", body) && e[7] == ("responses", responses)
      && e[8] == ("tags", if HasKey(op, "tags") then Field(op, "tags", JNull) else JArr([]))
  {
    FieldDefault(op, "summary", JStr(""));
    FieldDefault(op, "description", JStr(""));
    FieldDefault(op, "tags", JArr([]));
  }

  /** A kept method key upper-cases to one of the seven HTTP verbs. */
  lemma KeptMethodIsVerb(verb: string)
    requires IsHttpMethod(verb)
    ensures Upper(verb) in UpperHttpMethods
  {
    UpperOfLower(verb);
    var k :| 0 <= k < |HttpMethods| && HttpMethods[k] == Lower(verb);
    assert Upper(HttpMethods[k]) == UpperHttpMethods[k];
  }

  /** The derived operationId keeps `{` and `}` and replaces only slashes. */
  lemma DefaultOperationIdExample()
    ensures DefaultOperationId("get", "/items/{id}") == "get__items_{id}"
  {
    var id := DefaultOperationId("get", "/items/{id}");
    assert |id| == 15;
    assert id == "get__items_{id}" by {
      forall i | 0 <= i < 15 ensures id[i] == "get__items_{id}"[i] {
        if i >= 4 { assert id[i] == (if "/items/{id}"[i - 4] == '/' then '_' else "/items/{id}"[i - 4]); }
      }
    }
  }

  /** validate_openapi_spec accepts only specs the normaliser does not
      short-circuit: a valid spec is a non-empty dict. */
  lemma ValidSpecIsTruthy(spec: Json)
    requires ValidateOpenApiSpec(spec)
    ensures spec.JObj? && Truthy(spec) && Truthy(Field(spec.fields, "paths", JNull))
  {
  }
}
