# apibee client: resource paths and request preparation

This project models the core of the `apibee` REST client (`apibee/client.py`).
A `Client` is bound to a base address and an HTTP transport. Reading a key on
the client, by attribute or by index, starts a `Resource`: a path of one
segment, bound to that client. Reading a key on a resource gives a new
resource with one more segment. Calling a resource does four things in order:

1. It renders the URL as `"/"` followed by the segments joined with `"/"`.
2. It updates the call-time keyword parameters with the client's persistent
   query (`_query`). On a shared name the persistent value wins.
3. It passes (URL, query) through the request hook `build_request`.
4. It sends the result as a GET.

The client's `request` records the response and its body. It then returns
the body passed through the result hook `process_result`. Calling the client
itself is the same pipeline with the URL `"/"`. Both hooks return their
inputs unchanged unless a subclass overrides them.

Modules:

- `Wrappers` (wrappers.dfy): `Option` and `Result`.
- `Http` (http.dfy): the query type, responses, the transport and the errors.
  The transport is a function from (base address, verb, path, query) to a
  delivered response or a failure.
- `Paths` (paths.dfy): path keys, `Join`, URL rendering, and the inverse
  `ParseUrl`. Rendering is proved to lose nothing on non-empty paths whose
  segments hold no `/`.
- `Queries` (queries.dfy): the query merge, written as a map override.
- `ApiBee` (client.dfy): the `Client` class with its mutable persistent query,
  hooks and last response/result. Also the `Resource` datatype (an immutable
  path bound to a client), the default hooks and the request pipeline.
- `Scenarios` (scenarios.dfy): the behaviours of `tests/test_client.py`,
  stated over the model.

Three behaviours of the code worth stating outright:

- The client's persistent `_query` overrides call-time parameters, rather
  than filling gaps: `query.update(self._query)` at `apibee/client.py:56`
  and `apibee/client.py:95`.
- A segment that is not a string is accepted when the path is built. The
  error comes from `"/".join` when the resource is called.
- A call sends a GET immediately and returns the processed result. There is
  no separate step that selects the HTTP verb.

## Model

| member | source | states |
|---|---|---|
| `Paths.ResourceUrl` | apibee/client.py:91-92 | The URL is `/` followed by the segments joined with `/`. It fails exactly when some segment is not a string, and the error names the first such segment. A successful URL always starts with `/`. |
| `Paths.Join` | apibee/client.py:92 | `str.join`: the empty list joins to the empty string. A non-empty list's join starts with its first part, and its length is the parts' total length plus one separator per gap. |
| `Paths.FirstNonString` | apibee/client.py:92 | The first index at which `join` meets a non-string item, or none exactly when every item is a string. All items before that index are strings. |
| `Paths.UrlOfNames` | apibee/client.py:91-92 | A path of string segments renders as `"/" + "/".join(segments)`. |
| `Paths.AppendedUrl` | apibee/client.py:79-92 | Adding a string segment to a non-empty renderable path adds `/` and that segment to its URL. |
| `Paths.RootUrl` | apibee/client.py:55-58 | The empty path renders as `/`, the URL the client itself sends. |
| `Paths.SplitJoin` | apibee/client.py:92 | Splitting the join of separator-free parts on the separator gives the parts back. |
| `Paths.ParseRenderedUrl` | apibee/client.py:91-92 | Parsing the URL of a non-empty path of slash-free string segments gives those segments back. |
| `Paths.UrlInjective` | apibee/client.py:91-92 | Two such paths with the same URL are the same path. |
| `Paths.EmptySegmentIsRoot` | apibee/client.py:91-92 | Without that restriction the URL is not injective: a single empty segment renders as `/`, like the empty path. |
| `Queries.Merge` | apibee/client.py:94-96 | The merged query has every call-time name and every persistent name. A persistent value wins on a shared name. Otherwise the call-time value is kept. |
| `Queries.MergeEmpty` | apibee/client.py:39 | With the initial, empty persistent query, the merged query equals the call-time query. |
| `Queries.MergeIdempotent` | apibee/client.py:94-96 | A property of the merge itself: updating a merged query again with the same persistent parameters changes nothing. |
| `ApiBee.DefaultBuildRequest` | apibee/client.py:60-69 | The default request hook returns its resource URL and query unchanged. |
| `ApiBee.DefaultProcessResult` | apibee/client.py:71-72 | The default result hook returns the body unchanged. |
| `ApiBee.PrepareRequest` | apibee/client.py:85-96 | The request a call sends is the hook applied to the URL and a query that has every call-time and persistent name, with the persistent value on a clash (merge, then hook: lines 56-57 and 86-88). |
| `ApiBee.DefaultRequest` | apibee/client.py:85-96 | With the default hook, the request goes to the URL. Its query holds the call-time and persistent names, with the persistent value on a clash. |
| `ApiBee.DefaultRequestFresh` | apibee/client.py:37-41 | A fresh client with the default hook sends the call-time query unchanged. |
| `ApiBee.Client.constructor` | apibee/client.py:37-41 | A new client has an empty persistent query and no last response or result. It is bound to its base address, transport and hooks. |
| `ApiBee.Client.Access` | apibee/client.py:43-47 | Attribute and index access on the client give a resource bound to this client with exactly `[key]` as segments. Being a function, it changes nothing. |
| `ApiBee.Client.Request` | apibee/client.py:49-53 | A delivered response is recorded as the last response, and its body as the last result. The return value is the result hook applied to that body. A failed request raises `RequestFailed` and records nothing. Query and hooks are unchanged. |
| `ApiBee.Client.Get` | apibee/client.py:58 | A GET is a request with the verb `GET`. |
| `ApiBee.Client.Call` | apibee/client.py:55-58 | Calling the client sends a GET of the request hook's output for `/` and the merged query. The hook and the persistent query are read at call time. |
| `ApiBee.Resource.Access` | apibee/client.py:79-83 | A new resource on the same client, one segment longer: the old segments followed by the key. The old resource is an unchanged value. |
| `ApiBee.Resource.Url` | apibee/client.py:91-92 | The resource URL succeeds exactly when all segments are strings. It is then `/` followed by them joined with `/`. |
| `ApiBee.Resource.GetQuery` | apibee/client.py:94-96 | The call-time query updated with the client's current persistent query: all names of both, with the persistent value on a clash. |
| `ApiBee.Resource.Entries` | apibee/client.py:74-77 | A resource, seen as the dict it subclasses, has no entries. |
| `ApiBee.Resource.Call` | apibee/client.py:85-89 | If a segment is not a string, the call raises before anything is sent and the client is unchanged. Otherwise it sends a GET of exactly what the request hook returns for (rendered URL, merged query). |
| `ApiBee.AccessAllAppends` | apibee/client.py:79-83 | A chain of accesses appends its keys in order and stays on the same client. |
| `ApiBee.ChainFromClient` | apibee/client.py:43-47 | A chain started on the client has exactly its keys as segments, in order, and stays bound to that client. |
| `ApiBee.RootIsEmptyResource` | apibee/client.py:55-58 | Only the URL is covered: the resource with no segments renders as `/`, the URL the client's own call uses. |
| `ApiBee.UnsetAttributeMergesToNothing` | apibee/client.py:43-44 | Merging the mapping of an attribute the client lacks leaves a query as it was. That mapping is an empty resource. |
| `Scenarios.SimplePath` | tests/test_client.py:36-42 | `api.tests.simple` renders as `/tests/simple`. |
| `Scenarios.GetObjectPath` | tests/test_client.py:75-81 | `api.tests.get_object["23"]` renders as `/tests/get_object/23`. |
| `Scenarios.NonStringIndexFailsAtCall` | apibee/client.py:79-92 | A non-string index is accepted into the path, and the join fails at that segment when the resource is called. |
| `Scenarios.WithArgsCall` | tests/test_client.py:44-50 | A plain client calling `tests.with_args(foo="1", bar="2")` sends exactly that GET. It returns the raw body and records the response. If the transport fails, it records nothing. |
| `Scenarios.PersistentHook` | tests/test_client.py:62-64 | The persistent-parameters hook keeps the path. It sends every name of the query and of its own parameters, its own value winning on a clash. |
| `Scenarios.PersistentParamsUnset` | tests/test_client.py:62-68 | Before the persistent parameters are set, the hook merges an empty resource, so only `bar` is sent. |
| `Scenarios.PersistentParamsSet` | tests/test_client.py:69-73 | After `foo` is set, the hook adds it to every call, whatever `bar` is. |
| `Scenarios.FormatHook` | tests/test_client.py:91-93 | The format hook keeps the query and sends the path followed by `.` and the format. |
| `Scenarios.FormatSwitch` | tests/test_client.py:83-102 | A suffix hook sends `/tests/list.json`. After the format is switched, the same chain goes to `/tests/list.xml`, because the hook is read when the call is made. |
| `Scenarios.EncodedQueryHook` | tests/test_client.py:117-119 | The encoded-query hook keeps the path. It sends `q` plus its own parameters and nothing else. `q` holds the encoding of the query it was given, unless one of its own parameters is named `q`; its own values win. This covers lines 131-134 too. |
| `Scenarios.EncodedQuery` | tests/test_client.py:116-144 | Without extras, exactly `q` is sent, holding the encoding of the merged query. With the persistent `v=1.0`, exactly `q` (that same encoding) and `v` = `1.0` are sent. |

## Left out

- The restkit transport is not modelled: the `RestkitResource` base, redirect following (`max_follow_redirect=10`), and how `RequestFailed` is built. The transport is a function field of the client, supplied at construction, that returns a response or a failure.
- The query-string encoding behind `final_url` is not modelled. In `Scenarios.FormatSwitch` the transport's final URL is the base address plus the path only.
- JSON encoding and decoding are not modelled. The encoder is a parameter in `Scenarios.EncodedQuery`. A decoding result hook is any function `string -> R`.
- The test HTTP server (`tests/server.py`) is network I/O. `Scenarios.WithArgsCall` is stated for any transport.
- Python's attribute lookup is not modelled. Names that already exist on the object never reach `__getattr__`: dict methods such as `keys`, restkit's `get` and `request`, and `_client`/`_resources`. So attribute access differs from index access for those names. The model has one `Access` per class with index semantics, because both bodies are identical.
- Subclass attributes read live by hooks (`_format`, `_persistent_query`) are modelled by assigning a new hook value to `buildRequest`. A hook that formats an unset attribute, which Python renders as an empty dict, is not modelled.
- Query values are strings. A non-string value such as `foo=42` is converted by the transport, which is not modelled.
- restkit's own keyword names for `get` (`headers`, `params_dict`, `path`) would clash with query parameters of the same name. This is not modelled.
- `_query` starts as an empty list. Updating with an empty list adds nothing, so the model starts from the empty map. Assigning a list of pairs later is not modelled, because the field is a map.
- Hooks are total functions; an exception raised inside a hook is not modelled.
- The multi-verb protocol is not modelled, because this code sends only a GET, immediately.
- Nothing is concurrent; the single last-response slot is modelled as two fields that each request overwrites.
