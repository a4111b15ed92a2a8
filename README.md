# OpenAPI test-case generator: normaliser, model-output cleanup and mock fallback

This project models the core of a service that turns an OpenAPI document into
API test cases.

- **The normaliser** (`app/utils.py`) flattens the document's `paths` →
  path item → operation tree into one endpoint record per HTTP operation.
  - Parameters are sorted into `path`, `query`, `header` and `cookie`
    buckets.
  - One request-body content type is chosen by a fixed priority.
  - Responses are copied per status code.
  - A validation predicate checks the document's top-level keys.
- **The generation client** (`app/llm_client.py`) asks a hosted language
  model for a JSON test suite.
  - It cleans the model's text: markdown fences are removed and the
    bracketed span is kept.
  - It parses the result.
  - It falls back to a canned mock suite whenever the key is not configured,
    the call fails, the status is not 200, the reply has no candidate or the
    text does not parse.

The model works on values, not bytes.

- JSON values are the datatype `Json.Json`. An object is an ordered sequence
  of key/value pairs, because Python dicts iterate in insertion order.
- The Python operations that can raise, `get`, `items()`, `in` and
  iteration, are total functions that return `None` where Python raises.
  Truthiness and `d[k] = v` cannot raise on a JSON value and are plain
  functions.
- A raised exception is `Option.None`. Where the source catches it, the
  model maps it to the source's fallback:
  - `{}` for the normaliser;
  - the mock suite for the client.

Each Python function that works by a loop is a method. Its loop is proved to
compute a fold function: `ExtractParameters`, `ExtractRequestBody`,
`ExtractResponses`, `PreprocessOpenApiSpec` and `GenerateMockTestCases`. The
properties the code promises are lemmas about those folds.
`generate_test_cases` is the function `GenerationClient.GenerateTestCases`.
The HTTP exchange and `json.loads` are parameters of it:

- a `Reply` value says whether the call got through, its status, and what the
  candidate chain of the body yielded;
- `parse` stands for `json.loads`, with `None` meaning a decode error.

Files, in dependency order:

- `wrappers.dfy`: `Option`.
- `json.dfy`: the Json values and dict operations.
- `text.dfy`: `lower`/`upper`, `strip`, `str(int)` and `{i:03d}`.
- `spec_normalizer.dfy` and `normalizer_properties.dfy`: `app/utils.py`.
- `json_cleanup.dfy`: `cleanup_json_text`.
- `mock_fallback.dfy`: `generate_mock_test_cases`.
- `generation.dfy`: `generate_test_cases`, and the mock suite of a
  normalised document.

## Model

| member | source | states |
|---|---|---|
| SpecNormalizer.IsHttpMethod | app/utils.py:26 | The method filter: the key lower-cased is one of get, post, put, patch, delete, head, options. `KeptMethodIsVerb` and `GetIsKept` state its consequences. |
| SpecNormalizer.DefaultOperationId | app/utils.py:30 | The derived operationId is the method key as written, then `_`, then the path with every `/` (and nothing else) replaced by `_`. It is never empty. |
| SpecNormalizer.ParamInfo | app/utils.py:61-67 | A parameter record fails exactly when `schema` is present but not a dict. Otherwise it holds exactly type, required, description, example and schema, in that order. |
| SpecNormalizer.ParamInfoDefaults | app/utils.py:61-67 | The defaults of a parameter record: type from the schema, else "string"; required false; description ""; example None; schema {}. |
| SpecNormalizer.RecordLookups | app/utils.py:61-67 | Each of the five keys of a parameter record finds the value stored under it. |
| NormalizerProperties.EmptyBucketsValid | app/utils.py:51-56 | The initial buckets are exactly path, query, header and cookie, in order, each an empty dict. |
| NormalizerProperties.EmptyBucketsHoldNothing | app/utils.py:51-56 | Before the loop every bucket, and any key that is not a bucket, holds nothing. |
| NormalizerProperties.AddParameterKeepsBuckets | app/utils.py:69-70 | Storing one parameter keeps exactly the four location buckets, each a dict. Nothing else is added. |
| SpecNormalizer.AddParameter | app/utils.py:58-70 | One iteration of the parameter loop: a non-dict parameter or an unhashable location raises, a location that is not a bucket drops the parameter, and a kept one is stored under its name. `AddParameterKeepsBuckets` and `AddParameterPlacement` state what it keeps and where it stores. |
| SpecNormalizer.AddParameters | app/utils.py:58-70 | The parameter loop as a fold over the parameters, failing at the first iteration that raises. |
| SpecNormalizer.ParametersOf | app/utils.py:47-72 | extract_parameters: `parameters` (default []) iterated into the four empty buckets. `ParametersShape` and `ParameterPlacement` state its result. |
| SpecNormalizer.ExtractParameters | app/utils.py:47-72 | The loop computes the fold `ParametersOf`. It fails when `parameters` is not iterable, when a parameter is not a dict, when a location is unhashable, or when a schema is not a dict. A location outside the four buckets drops the parameter. |
| NormalizerProperties.ParametersShape | app/utils.py:51-72 | extract_parameters always returns exactly the four location buckets, each a dict, in the order path, query, header, cookie. |
| NormalizerProperties.LastPlaced | app/utils.py:58-70 | Reference definition for placement: the record of the last parameter whose location and name are the given ones. |
| NormalizerProperties.ParameterPlacement | app/utils.py:58-70 | Looking up `name` in bucket `loc` gives the record of the LAST parameter whose location (default "query") is `loc` and whose name (default "unknown") is `name`. If there is none, the lookup finds nothing: a later duplicate replaces an earlier one, and every other parameter is dropped. |
| NormalizerProperties.ParamRaises | app/utils.py:58-70 | The parameters that make the loop raise: not a dict, a schema present but not a dict, a list or dict location, or a bucket location under a name that is not a str (the last is the deviation listed under "Left out"). |
| NormalizerProperties.AddParameterFails | app/utils.py:58-70 | One parameter step raises exactly on a parameter of `ParamRaises`, whatever the four buckets already hold. |
| NormalizerProperties.AddParametersFail | app/utils.py:58-70 | The loop raises exactly when one of the parameters raises. |
| NormalizerProperties.ParametersFail | app/utils.py:47-72 | extract_parameters raises exactly when `parameters` (default []) is not iterable or one of its parameters raises. |
| NormalizerProperties.FirstPresent | app/utils.py:85-86 | The reference priority choice: the first of the listed content types the content dict holds. It is absent iff none of them is held. |
| NormalizerProperties.SelectBodyPriority | app/utils.py:85-92 | The priority loop returns the record for `FirstPresent`, or `{}` when none is present. It does not depend on the order the document declares its content types. |
| SpecNormalizer.SelectBody | app/utils.py:85-92 | The priority loop over the three content types as a fold: the record for the first one the content holds, `{}` if none. `SelectBodyPriority` relates it to `FirstPresent`. |
| SpecNormalizer.RequestBodyOf | app/utils.py:74-94 | extract_request_body: `{}` for a falsy body, otherwise the priority loop over `content`. `RequestBodySelection` states its result. |
| SpecNormalizer.ExtractRequestBody | app/utils.py:74-94 | The loop computes the fold `RequestBodyOf`. A falsy body gives `{}`. A body that is not a dict, a `content` that cannot be indexed, or an entry that is not a dict fails. |
| NormalizerProperties.RequestBodySelection | app/utils.py:78-94 | `{}` when no body is declared or none of json, form-urlencoded, multipart is present. Otherwise: the first present type in that priority order, `required` defaulting to false, that entry's schema (default {}) and the body's description (default ""). It fails when that entry is not a dict. |
| SpecNormalizer.ContentEntry | app/utils.py:110-114 | A content entry copy fails exactly when the entry is not a dict. Otherwise it holds only schema and example. |
| SpecNormalizer.PutEach | app/utils.py:110-116 | A copy loop `for k, v in d.items(): out[k] = f(v)` as a fold, failing at the first `f` that raises. `PutEachPointwise` and `PutEachFails` state its result. |
| SpecNormalizer.ResponseData | app/utils.py:103-114 | The record built for one response. `ResponseDataShape` states its keys and content. |
| SpecNormalizer.ResponsesOf | app/utils.py:96-118 | extract_responses: every status code of `responses` (default {}) mapped to its response record. `ResponsesCopied` and `ResponsesFail` state its result. |
| NormalizerProperties.PutEachPointwise | app/utils.py:110-116 | Copying a dict entry by entry into a dict without its keys keeps the keys in order and transforms each value in place. |
| NormalizerProperties.PutEachFails | app/utils.py:102-116 | A copy loop fails exactly when some entry's transformation fails. |
| NormalizerProperties.ResponseDataShape | app/utils.py:103-114 | A response record holds exactly description, headers and content. Its content has the declared content types in declaration order, each reduced to schema and example. |
| SpecNormalizer.ExtractResponses | app/utils.py:96-118 | The two nested loops compute the fold `ResponsesOf`. |
| NormalizerProperties.ResponsesCopied | app/utils.py:100-118 | extract_responses keeps the declared status codes in order, and under each holds that code's copied response. |
| NormalizerProperties.ResponsesFail | app/utils.py:102-114 | extract_responses fails exactly when `responses` is not a dict or some response cannot be copied. |
| SpecNormalizer.EndpointOf | app/utils.py:27-37 | The endpoint record of one kept operation; it raises when the operation is not a dict or an extraction raises. `EndpointRecord` states its fields. |
| SpecNormalizer.EndpointFields | app/utils.py:27-37 | The nine fields of that record in source order. `FieldsDefaults` states each field. |
| SpecNormalizer.PathEndpoints | app/utils.py:25-38 | The inner loop over one path item's methods as a fold. `PathEndpointsOrder` states its result. |
| SpecNormalizer.AllEndpoints | app/utils.py:23-38 | The outer loop over the paths as a fold; a path item that is not a dict raises. `AllEndpointsOrder` states its result. |
| NormalizerProperties.KeptOperations | app/utils.py:23-26 | Reference definition: the (path, method key, operation) triples the two loops keep, in iteration order. |
| NormalizerProperties.PathEndpointsOrder | app/utils.py:25-38 | The inner loop appends, after what was there, one record per kept method of the path item, in iteration order. |
| NormalizerProperties.AllEndpointsOrder | app/utils.py:23-38 | The outer loop appends the records of every kept (path, method) operation, in path-then-method order. |
| SpecNormalizer.Preprocess | app/utils.py:7-45 | A falsy document gives `{}`. Any other result is `{}` (an exception was caught) or exactly info (default {}), servers (default []) and an endpoint list. A truthy dict whose `paths` is absent or an empty dict gives an empty endpoint list. `PreprocessFails` states when the result is `{}`. |
| SpecNormalizer.PreprocessOpenApiSpec | app/utils.py:7-45 | The method's nested loops compute `Preprocess`. |
| NormalizerProperties.PreprocessEndpoints | app/utils.py:21-38 | The endpoints correspond one for one to the kept (path, method key, operation) triples, in iteration order. Each is that operation's own record. Method keys outside the seven verbs yield nothing. |
| NormalizerProperties.PathEndpointsFails | app/utils.py:24-38 | The inner loop raises exactly when the record of one of the path item's kept operations raises. |
| NormalizerProperties.AllEndpointsFails | app/utils.py:23-38 | The outer loop raises exactly when some path item is not a dict or the record of one kept operation raises. |
| NormalizerProperties.EndpointFails | app/utils.py:27-37 | One endpoint record raises exactly when the operation is not a dict or one of extract_parameters, extract_request_body and extract_responses raises. |
| NormalizerProperties.PreprocessFails | app/utils.py:11-45 | The result is `{}` exactly when the document is falsy or not a dict, `paths` (default {}) is not a dict, a path item is not a dict, or the record of one kept operation raises. Every other document yields info, servers and its endpoints. |
| NormalizerProperties.EndpointRecord | app/utils.py:27-37 | An endpoint record, key by key, in order: the path; the upper-cased method; the operationId kept verbatim or derived; summary and description defaulting to ""; the three extractions; tags defaulting to []. |
| NormalizerProperties.FieldsDefaults | app/utils.py:27-37 | The same nine fields given the three extraction results: each `.get` is the operation's own value when it has the key and the default otherwise. |
| Json.FieldDefault | app/utils.py:30-32 | `.get(k, default)` is the stored value when the key is present and the default otherwise. |
| Json.Get | app/utils.py:62 | `x.get(k, d)` raises exactly when `x` is not a dict. Otherwise it gives the stored value when `k` is present and `d` otherwise. |
| Json.ItemsRaises | app/utils.py:23-25 | `x.items()` raises exactly when `x` is not a dict, and otherwise gives its pairs in insertion order. |
| Json.Iter | app/utils.py:58 | `for y in x` raises exactly when `x` is a number, a boolean or None. `IterYields` states what it yields. |
| Json.IterYields | app/utils.py:58 | Iteration yields a list's items, a dict's keys in insertion order, and a str's characters one by one. |
| Json.Truthy | app/utils.py:12 | `if x:` for a JSON value. `FalsyValues` states which values are falsy. |
| Json.FalsyValues | app/utils.py:79 | The falsy values are exactly None, False, 0, "", [] and {}. |
| Json.Contains | app/utils.py:86 | `k in x` raises exactly when `x` is a number, a boolean or None. For a dict it tests the keys, for a list the items, for a str substrings. |
| Json.SubstringOccurs | app/utils.py:86 | The substring test holds exactly when `k` occurs at some position of the str. |
| Json.Put | app/utils.py:70 | `d[k] = v`: `PutLookup`, `PutKeys`, `PutFresh` and `PutDistinct` state its effect. It cannot raise. |
| Json.PutLookup | app/utils.py:70 | After `d[k] = v`, `k` finds `v` and every other key finds what it found before. |
| Json.PutKeys | app/utils.py:70 | An assigned key keeps its position if present and is appended otherwise. |
| Json.PutFresh | app/utils.py:70 | Assigning a key the dict does not hold yet appends the pair at the end. |
| Json.PutDistinct | app/utils.py:70 | Assigning into a dict keeps its keys distinct. |
| NormalizerProperties.KeptMethodIsVerb | app/utils.py:26-29 | A kept method key upper-cases to one of GET, POST, PUT, PATCH, DELETE, HEAD, OPTIONS, whatever its case. |
| Text.LowerFixed | app/utils.py:26 | A key without upper-case letters is its own `lower()`. |
| Text.UpperOfLower | app/utils.py:26-29 | A key's upper-cased form does not depend on lower-casing it first, so the method filter and the stored method agree. |
| Text.ReplaceChar | app/utils.py:30 | `path.replace('/', '_')`. `ReplaceCharRemoves` states its effect; it cannot raise. |
| Text.ReplaceCharRemoves | app/utils.py:30 | After the replacement no `/` is left, every other character stays in place, and replacing again changes nothing. |
| Text.NatToString | app/llm_client.py:168 | `str(n)` for n >= 0: decimal digits with no leading zero, one digit below 10, two below 100, three below 1000 and more from 1000 on. `NatToStringValue` states its value. |
| Text.NatToStringValue | app/llm_client.py:168 | The digits of `str(n)` denote `n`. |
| Text.IntToString | app/llm_client.py:168 | `str(i)` for any int. `IntToStringValue` and `IntToStringInjective` state its properties; it cannot raise. |
| Text.IntToStringValue | app/llm_client.py:168 | `str(i)` is `-` exactly for a negative `i`, followed by the digits of the magnitude, with a leading zero only for 0. |
| Text.IntToStringInjective | app/llm_client.py:168 | Different numbers print differently. |
| NormalizerProperties.DefaultOperationIdExample | app/utils.py:30 | For GET /items/{id} the derived operationId is `get__items_{id}`: braces are kept. |
| SpecNormalizer.ValidateOpenApiSpec | app/utils.py:120-147 | Valid iff the document is a dict with an `openapi` or `swagger` key, an `info` key and a truthy `paths` entry. Containers that are not dicts, and values with no `in`, are rejected instead of raising. |
| NormalizerProperties.ValidSpecIsTruthy | app/utils.py:120-143 | A valid document is a non-empty dict with truthy paths, so the normaliser does not short-circuit on it. |
| JsonCleanup.CleanupJsonText | app/llm_client.py:139-152 | cleanup_json_text: the fence step, then the span step. `CleanupIdempotent`, `CleanupKeepsBracketed` and `CleanupFencedBlock` state its behaviour. |
| JsonCleanup.StripFences | app/llm_client.py:144-146 | The fence step: applied only to a text that starts with a fence. `StripFencesNoOpening` and `StripFencesLeavesNone` state its result. |
| JsonCleanup.RemoveFences | app/llm_client.py:146 | `replace("```", "")`, scanning left to right. `RemoveFencesLeavesNone`, `RemoveFencesAppend` and `RemoveFencesNoop` state its behaviour. |
| JsonCleanup.DropLetters | app/llm_client.py:145 | The text after the opening fence, without its leading run of ASCII letters. It never starts with a letter. |
| JsonCleanup.RemoveFencesLeavesNone | app/llm_client.py:146 | After `replace("```", "")` no fence is left, even if removing one brings backticks together. |
| JsonCleanup.RemoveFencesAppend | app/llm_client.py:146 | Fence removal distributes over concatenation when no backtick sits at the seam. |
| JsonCleanup.RemoveFencesNoop | app/llm_client.py:146 | A text with no fence is unchanged. |
| JsonCleanup.DropTag | app/llm_client.py:145 | A language tag of letters followed by a non-letter is removed exactly. |
| JsonCleanup.StripFencesNoOpening | app/llm_client.py:144-146 | After fence stripping the text never starts with a fence. |
| JsonCleanup.StripFencesLeavesNone | app/llm_client.py:144-146 | A text that starts with a fence has no fence left anywhere after stripping. |
| JsonCleanup.NoFenceAtStart | app/llm_client.py:144 | A text not starting with a backtick is not touched by the fence step. |
| JsonCleanup.StartsWithFence | app/llm_client.py:144 | `startswith("```")` holds exactly when the first three characters are backticks. |
| JsonCleanup.NewlineFramedHasNoFence | app/llm_client.py:146 | Framing a fence-free text with newlines creates no fence. |
| JsonCleanup.FenceAfterBody | app/llm_client.py:146 | A newline-framed fence-free body followed by a closing fence loses exactly that fence. |
| JsonCleanup.StripFencedBlock | app/llm_client.py:144-146 | "```tag\n" + s + "\n```" is stripped to "\n" + s + "\n". |
| JsonCleanup.FirstSpanStart | app/llm_client.py:149 | The leftmost position holding `[` with a `]` after it, or `{` with a `}` after it, where the search matches. |
| JsonCleanup.FirstSpanStartIs | app/llm_client.py:149 | The search start is unique: any leftmost opening position is the one found. |
| JsonCleanup.LastIndexOf | app/llm_client.py:149 | The last occurrence of the closer, where the greedy `.*` ends. |
| JsonCleanup.LastIndexOfIs | app/llm_client.py:149 | The last occurrence is unique. |
| JsonCleanup.ExtractSpan | app/llm_client.py:149-152 | With no opening position the text is returned whole. Otherwise the span runs from the leftmost opening position to the last closer of its kind. |
| JsonCleanup.SpanIsBracketed | app/llm_client.py:149 | A matched span is at least two characters long, opens with `[` or `{`, and closes with the matching bracket. |
| JsonCleanup.SpanAfterProse | app/llm_client.py:149-151 | Prose without brackets, then a bracketed text, then a tail without its closer, yields the bracketed text. |
| JsonCleanup.SpanOfBracketed | app/llm_client.py:149-151 | A text that opens and closes with matching brackets is its own span. |
| JsonCleanup.CleanupKeepsBracketed | app/llm_client.py:139-152 | cleanup_json_text leaves a bracketed text unchanged. |
| JsonCleanup.CleanupIdempotent | app/llm_client.py:139-152 | Cleaning twice is cleaning once. |
| JsonCleanup.SpanIsFixed | app/llm_client.py:149-152 | A matched span is cleaned to itself. |
| JsonCleanup.UnspannedIsFixed | app/llm_client.py:144-152 | A text with no opening fence and no position opening a span is cleaned to itself. |
| JsonCleanup.CleanupFencedBlock | app/llm_client.py:139-152 | A bracketed text with no fence inside, wrapped as "```tag\n…\n```", is recovered exactly. |
| JsonCleanup.FencedArrayExample | app/llm_client.py:139-152 | "```json\n[1,2]\n```" cleans to "[1,2]". |
| JsonCleanup.ProseExample | app/llm_client.py:149-152 | "here is the result: [1,2] thanks" cleans to "[1,2]". |
| JsonCleanup.ProseThenFenceExample | app/llm_client.py:144-152 | "Sure! ```json\n[]\n```" does not start with a fence, so the fence step leaves it unchanged, and the span step gives "[]". |
| JsonCleanup.GreedySpanExample | app/llm_client.py:149-152 | "[1] and [2]" is kept whole: the span runs to the last `]`, not to the matching one. |
| Text.Strip | app/llm_client.py:124 | `strip()`: white space removed from both ends. `StripUnpadded` states when it changes nothing. |
| Text.Lower | app/utils.py:26 | ASCII `lower()`. `LowerFixed` and `UpperOfLower` state its properties. |
| Text.Upper | app/utils.py:29 | ASCII `upper()`. `UpperIdempotent` and `UpperOfLower` state its properties. |
| Text.StripUnpadded | app/llm_client.py:124 | A text with no white space at either end is its own `strip()`. |
| Text.UpperIdempotent | app/llm_client.py:167 | Upper-casing an already upper-cased method changes nothing. |
| Text.Pad3 | app/llm_client.py:172 | `{i:03d}`: digits only, at least three, exactly three below 1000, with the value `i`. |
| Text.Pad3Unpadded | app/llm_client.py:172 | From 100 on `{i:03d}` is `str(i)` with no padding, so a result longer than three digits never starts with 0. |
| Text.Pad3OneDigit | app/llm_client.py:172 | `{1:03d}` is `001`. |
| MockFallback.TestId | app/llm_client.py:172-188 | `f"TC{i:03d}_Mock_{scenario}"`. `TestIdsDistinct` states that ids do not collide. |
| MockFallback.HappyPath | app/llm_client.py:171-186 | The happy-path case for endpoint `i`. The `HappyPath…` lemmas state its id, category, token header and expected status. |
| MockFallback.MissingAuth | app/llm_client.py:187-201 | The missing-authorisation case for endpoint `i`. The `MissingAuth…` lemmas state its id, category, headers and expected status. |
| MockFallback.MockGroup | app/llm_client.py:165-203 | A group fails exactly when the endpoint is not a dict or its method is not a string. |
| MockFallback.MockGroupFields | app/llm_client.py:165-203 | The group holds exactly endpoint, method, summary, operationId and testCases, in that order. The values are: the path (default "/"); the upper-cased method (default "GET"); the summary or "Mock summary for <path>"; the operationId or `mock_op_<i>`; and the two canned cases numbered `i`. |
| MockFallback.GroupFields | app/llm_client.py:165-203 | The five fields of a group in source order, given the method and the summary chosen. `GroupFieldsDefaults` states each field. |
| MockFallback.GroupFieldsDefaults | app/llm_client.py:165-170 | Each copied field is the endpoint's own value when the key is present and the mock default otherwise. |
| MockFallback.Enumerate | app/llm_client.py:164-204 | The `enumerate` loop as a fold over a group-building function. `EnumerateFails`, `EnumeratePointwise` and `EnumerateFromOne` state its result. |
| MockFallback.MockTestCases | app/llm_client.py:155-206 | generate_mock_test_cases: one group per endpoint of `endpoints` (default []), numbered from 1. `MockSuiteShape` and `MockOfNormalized` state its result. |
| MockFallback.GenerateMockTestCases | app/llm_client.py:155-206 | The loop computes the fold `MockTestCases`. |
| MockFallback.EnumerateFails | app/llm_client.py:164-204 | The enumerate loop fails exactly when the group of some endpoint fails. |
| MockFallback.EnumeratePointwise | app/llm_client.py:164-204 | The enumerate loop appends one group per endpoint, the k-th (0-based) built with number start + k. |
| MockFallback.EnumerateFromOne | app/llm_client.py:164 | `enumerate(endpoints, 1)` from an empty list fails iff some group fails. Otherwise it holds exactly one group per endpoint, the k-th (0-based) numbered k + 1. |
| MockFallback.MockSuiteShape | app/llm_client.py:161-206 | The mock suite fails iff some group fails. Otherwise it is a list with one group per endpoint, in order, the k-th numbered k + 1. |
| MockFallback.NoEndpointsNoGroups | app/llm_client.py:162 | A dict without endpoints gets the empty suite. |
| MockFallback.PyStrExample | app/llm_client.py:168 | `str()` of a number, None and True inside the default summary. |
| MockFallback.Printable | app/llm_client.py:168 | The values whose `str()` the model spells out: everything but lists and dicts. |
| MockFallback.PyStr | app/llm_client.py:168 | `str(path)` inside the default summary. `PyStrValue` states its result; it cannot raise. |
| MockFallback.PyStrValue | app/llm_client.py:168 | A str prints as itself, a number as its decimal text (never None, True or False), and None, True and False by name. |
| MockFallback.CaseRequest | app/llm_client.py:171-200 | Indexing a canned case by "request" goes to its request dict. |
| MockFallback.HappyPathIdentity | app/llm_client.py:172-174 | The happy-path case has id `TC<i:03d>_Mock_HappyPath` and category Positive. |
| MockFallback.HappyPathSendsToken | app/llm_client.py:175-180 | The happy-path request carries the bearer token header. |
| MockFallback.HappyRequestToken | app/llm_client.py:175-180 | The happy-path request's headers hold the bearer token under Authorization. |
| MockFallback.HappyPathExpectsOk | app/llm_client.py:181-185 | The happy-path case expects status 200. |
| MockFallback.MissingAuthIdentity | app/llm_client.py:188-190 | The missing-auth case has id `TC<i:03d>_Mock_MissingAuth` and category Authentication. |
| MockFallback.MissingAuthHeaders | app/llm_client.py:191-195 | The missing-auth request has exactly the Content-Type header. |
| MockFallback.MissingAuthSendsNoToken | app/llm_client.py:191-195 | The missing-auth request has no Authorization header. |
| MockFallback.MissingRequestNoToken | app/llm_client.py:191-195 | The missing-auth request's headers have no Authorization key. |
| MockFallback.MissingAuthExpectsUnauthorized | app/llm_client.py:196-200 | The missing-auth case expects status 401. |
| MockFallback.TestIdsDistinct | app/llm_client.py:172-188 | Test ids never collide: an id determines both the endpoint number and the scenario. |
| GenerationClient.GenerateTestCases | app/llm_client.py:84-136 | generate_test_cases: the placeholder key, a failed call, a status other than 200, an unreadable body, no candidates and a decode error each give the mock suite; otherwise the parse of the stripped, cleaned text. `OutcomeIsParseOrMock` states this against `ModelText`. |
| GenerationClient.ModelText | app/llm_client.py:92-125 | Reference definition: the model's text when the key is configured, the call got through with status 200 and a candidate text was found. |
| MockFallback.FirstEndpointTestId | app/llm_client.py:172-188 | Endpoint 1's ids start with `TC001_Mock_`. |
| GenerationClient.OutcomeIsParseOrMock | app/llm_client.py:84-136 | The result is never a mix. It is the parse of the stripped and cleaned model text when there is such a text and it parses. In every other case it is the mock suite of the same document. |
| GenerationClient.PlaceholderKeyIgnoresModel | app/llm_client.py:92-94 | With the placeholder key the reply and the parser play no part: the result is the mock suite. |
| GenerationClient.ProviderErrorFallsBack | app/llm_client.py:114-116 | Any status other than 200 gives the mock suite, whatever the body says. |
| GenerationClient.UnparsableReplyFallsBack | app/llm_client.py:127-132 | A cleaned text the parser rejects gives the mock suite. |
| GenerationClient.BracketedReplyRoundTrip | app/llm_client.py:124-128 | A reply that is already a bracketed JSON text reaches the parser untouched, so its parse is the result. |
| GenerationClient.FencedReplyRoundTrip | app/llm_client.py:124-128 | A bracketed JSON text in a fenced block with a language tag reaches the parser without its fences. |
| GenerationClient.ProseWrappedReplyExample | app/llm_client.py:124-128 | "Sure! ```json\n[]\n```" reaches the parser as "[]". When that parses, it is the result and the mock suite is not used. |
| GenerationClient.CleanedReplyParsed | app/llm_client.py:124-128 | With a configured key and status 200, a candidate text whose stripped and cleaned form parses gives that parse. |
| GenerationClient.MirrorKeys | app/llm_client.py:165-170 | A group built from a normalised endpoint has the five group keys, in order. Its endpoint, method and operationId are the endpoint's own, and its cases are the two canned ones. |
| GenerationClient.EndpointIsShaped | app/utils.py:27-37 | Every endpoint record starts with path, method, operationId and summary, and its method is already upper case. |
| GenerationClient.MockOfEndpoint | app/llm_client.py:165-170 | The group of a normalised endpoint copies its path, method, summary and operationId verbatim. No mock default applies. |
| GenerationClient.MockOfShapedEndpoints | app/llm_client.py:161-206 | A document whose endpoints all look like normalised ones has a suite with one mirroring group per endpoint. |
| GenerationClient.NormalizedEndpointsShaped | app/utils.py:23-41 | Every endpoint of a normalised document has that shape, and `endpoints` is found by lookup. |
| GenerationClient.MockOfNormalized | app/llm_client.py:155-206 | The normaliser's output always has a mock suite, with one group per endpoint, each mirroring its endpoint and numbered from 1. The `{}` of a failed normalisation gets the empty suite. |
| GenerationClient.SingleOperationNormalized | app/utils.py:23-41 | A document with one path holding one kept, extractable operation normalises to that operation's record alone. |
| GenerationClient.ItemsSpecValid | app/utils.py:120-143 | The one-operation GET /items/{id} document passes validation. |
| GenerationClient.ItemsSpecPaths | app/utils.py:12-21 | The GET /items/{id} document is a truthy dict, and its `paths` holds the single path item /items/{id} with the single operation `get`. |
| GenerationClient.GetIsKept | app/utils.py:26 | The method key `get` is one of the kept verbs. |
| GenerationClient.ItemsSpecNormalized | app/utils.py:7-41 | The GET /items/{id} document normalises to exactly its operation's endpoint. |
| GenerationClient.EndpointHead | app/utils.py:27-30 | Looking up the path, method and operationId of a record gives the path, the upper-cased key and, when the operation declares none, the derived operationId. |
| GenerationClient.ItemsEndpoint | app/utils.py:27-30 | The GET /items/{id} endpoint has path /items/{id}, method GET and operationId `get__items_{id}`. |
| GenerationClient.ItemsMock | app/llm_client.py:155-206 | The GET /items/{id} document's mock suite is one group, which mirrors the endpoint. |
| GenerationClient.ItemsScenario | app/llm_client.py:92-94 | End to end, without a configured key, whatever the reply: one group, for /items/{id} and GET, operationId `get__items_{id}`, holding exactly the two canned cases of endpoint 1. |
| GenerationClient.ItemsScenarioTestIds | app/llm_client.py:172-188 | Those two cases are `TC001_Mock_HappyPath` and `TC001_Mock_MissingAuth`. |

## Behaviour that differs from a natural reading

In each of these cases the code does something other than what a reader of
the function names might expect, and the model follows the code.

- Derived operationId case. One might expect the derived operationId to use
  the lower-cased method. The code (`app/utils.py:30`) uses the method key
  as written, so a key `GET` gives `GET__items`.
- Derived operationId characters. One might expect every character that is
  not allowed in an identifier to be replaced, giving `get__items__id_` for
  GET /items/{id}. The code replaces only slashes, so it is
  `get__items_{id}` (`NormalizerProperties.DefaultOperationIdExample`,
  `GenerationClient.ItemsScenario`).
- Span extraction. One might expect the cleanup to keep the first balanced
  bracketed span. The regex at `app/llm_client.py:149` is greedy: it runs
  from the first opening bracket that has a closer of its kind anywhere
  after it to the LAST such closer. So `"[1] and [2]"` stays whole
  (`JsonCleanup.GreedySpanExample`). Whether that is intended cannot be told
  from the code, so the model keeps the greedy behaviour and no correction
  is proposed.

## Left out

- Numbers: `Json.JNum` holds integers. Float-valued inputs are outside the model, and so is Python's `1 == 1.0 == True` key equality. The truthiness tests of `app/utils.py:79` and `app/utils.py:139` and the `str(path)` of `app/llm_client.py:168` are modelled for integers only.
- SpecNormalizer.ExtractParameters: a parameter whose `name` is a number, a boolean or null is stored by Python under that non-string key. The model's dicts have string keys only, so it treats such a parameter as a failure, and the normaliser then returns `{}`. A `name` that is a list or dict fails in both.
- Text.Upper: `upper()`/`lower()` are ASCII-only in the model. Python maps other Unicode letters too. The model is exact for the seven HTTP verbs, the only keys whose case matters.
- MockFallback.MockGroup: requires `Formattable`. When an endpoint has no summary and its path is a list or dict, the default summary embeds Python's `repr` of that value, which the model does not spell out.
- MockFallback.GenerateMockTestCases: requires `MockReady`, the same restriction over every endpoint.
- GenerationClient.GenerateTestCases: requires `MockReady` for the same reason. The mock generator raising inside the `except` handler, which lets the exception escape, is the result `None`.
- `json.loads` and `response.json()`: the parser is the parameter `parse`. The chain `result["candidates"][0]["content"]["parts"][0]["text"].strip()` is abstracted into `Envelope`: it yields a text, no candidates, or an error.
- The HTTP exchange (`httpx`, async, the 120-second timeout), the request payload, `json.dumps` of the document and `PROMPT_TEMPLATE.format`: none affects which branch is taken. `json.dumps` cannot fail on a JSON value, and the template's literal braces are escaped.
- The `GEMINI_API_KEY` environment variable: the key is a parameter. The placeholder default is `GenerationClient.PlaceholderKey`.
- Logging: it has no effect on any result.
- A general regular-expression engine: the two patterns of `cleanup_json_text` are specified directly, as `DropLetters` and `ExtractSpan`.
- `app/main.py` and the web endpoints that call the core: they are not part of this model.
