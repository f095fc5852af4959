/**
 * The behaviours the client's test suite relies on, stated over the model:
 * the paths that chains render to, the requests that the hooks of its
 * subclasses shape, and the response recorded after a call.
 */
module Scenarios {
  import opened Wrappers
  import opened Http
  import opened Paths
  import opened Queries
  import opened ApiBee

  /** `api.tests.simple` is the resource "/tests/simple". */
  lemma SimplePath<R>(c: Client<R>)
    ensures c.Access(Name("tests")).Access(Name("simple")).Url() == Success("/tests/simple")
  {
    assert c.Access(Name("tests")).Access(Name("simple")).segments == [Name("tests"), Name("simple")];
    UrlOfTwo("tests", "simple");
    assert "/" + "tests" + "/" + "simple" == "/tests/simple";
  }

  /** An index access is one more segment: `api.tests.get_object["23"]` is "/tests/get_object/23". */
  lemma GetObjectPath<R>(c: Client<R>)
    ensures c.Access(Name("tests")).Access(Name("get_object")).Access(Name("23")).Url()
            == Success("/tests/get_object/23")
  {
    var r := c.Access(Name("tests")).Access(Name("get_object")).Access(Name("23"));
    assert r.segments == [Name("tests"), Name("get_object"), Name("23")];
    UrlOfThree("tests", "get_object", "23");
    assert "/" + "tests" + "/" + "get_object" + "/" + "23" == "/tests/get_object/23";
  }

  /** A non-string index is accepted when the chain is built and raises when the resource is called. */
  lemma NonStringIndexFailsAtCall<R>(c: Client<R>)
    ensures c.Access(Name("tests")).Access(NonString("int")).segments == [Name("tests"), NonString("int")]
    ensures c.Access(Name("tests")).Access(NonString("int")).Url() == Failure(SegmentTypeError(1))
  {
  }

  /**
   * A plain client calling `api.tests.with_args(foo="1", bar="2")` sends a
   * GET of "/tests/with_args" with exactly those parameters, and returns the
   * raw body of the response.
   */
  method WithArgsCall(base: string, transport: Transport) returns (out: Result<string, Error>, c: Client<string>)
    ensures c.baseUri == base && c.transport == transport
    ensures match transport(base, "GET", "/tests/with_args", map["foo" := "1", "bar" := "2"])
            case Delivered(resp) =>
              out == Success(resp.body) && c.lastResult == Some(resp.body) && c.lastResponse == Some(resp)
            case Failed(status, body) =>
              out == Failure(RequestFailed(status, body)) && c.lastResult == None && c.lastResponse == None
  {
    c := new Client<string>(base, transport, DefaultBuildRequest, DefaultProcessResult);
    var r := c.Access(Name("tests")).Access(Name("with_args"));
    assert r.segments == [Name("tests"), Name("with_args")];
    UrlOfTwo("tests", "with_args");
    assert "/" + "tests" + "/" + "with_args" == "/tests/with_args";
    MergeEmpty(map["foo" := "1", "bar" := "2"]);
    out := r.Call(map["foo" := "1", "bar" := "2"]);
  }

  /** A subclass hook that updates the query with parameters of its own. */
  function PersistentHook(extra: Query): (h: BuildHook)
    ensures forall res, q :: h(res, q).path == res
    ensures forall res, q :: h(res, q).query.Keys == q.Keys + extra.Keys
    ensures forall res, q, k :: k in extra ==> h(res, q).query[k] == extra[k]
    ensures forall res, q, k :: k in q && k !in extra ==> h(res, q).query[k] == q[k]
  {
    (resource: string, query: Query) => Prepared(resource, Merge(query, extra))
  }

  /**
   * Before the persistent parameters are set, the hook reads an attribute
   * the client lacks, whose mapping is empty, so only bar is sent.
   */
  lemma PersistentParamsUnset<R>(c: Client<R>)
    ensures PersistentHook(c.Access(Name("_persistent_query")).Entries())("/tests/with_args", map["bar" := "2"]).query
            == map["bar" := "2"]
  {
  }

  /** Once foo is set, it is added to every call, whatever bar is. */
  lemma PersistentParamsSet(bar: string)
    ensures PersistentHook(map["foo" := "42"])("/tests/with_args", map["bar" := bar]).query
            == map["bar" := bar, "foo" := "42"]
  {
  }

  /** A subclass hook that appends a format suffix to the resource URL. */
  function FormatHook(format: string): (h: BuildHook)
    ensures forall res, q :: h(res, q).query == q && h(res, q).path == res + "." + format
  {
    (resource: string, query: Query) => Prepared(resource + "." + format, query)
  }

  /** A transport whose final URL is the base address followed by the path. */
  function EchoTransport(): Transport
  {
    (base: string, verb: string, path: string, q: Query) => Delivered(Response(base + path, 200, ""))
  }

  /**
   * The request hook is read when the call is made: after the format is
   * switched from json to xml, the same chain is sent to the other URL.
   */
  method FormatSwitch(base: string) returns (first: Option<Response>, second: Option<Response>)
    ensures first.Some? && first.value.finalUrl == base + "/tests/list.json"
    ensures second.Some? && second.value.finalUrl == base + "/tests/list.xml"
  {
    var c := new Client<string>(base, EchoTransport(), FormatHook("json"), DefaultProcessResult);
    var r := c.Access(Name("tests")).Access(Name("list"));
    assert r.segments == [Name("tests"), Name("list")];
    UrlOfTwo("tests", "list");
    assert "/" + "tests" + "/" + "list" == "/tests/list";
    var out := r.Call(map["foo" := "bar"]);
    first := c.lastResponse;
    c.buildRequest := FormatHook("xml");
    out := r.Call(map["foo" := "arg"]);
    second := c.lastResponse;
  }

  /**
   * A subclass hook that replaces the whole query by one parameter `q`
   * holding the encoded query, then adds parameters of its own.
   */
  function EncodedQueryHook(encode: Query -> string, extra: Query): (h: BuildHook)
    ensures forall res, q :: h(res, q).path == res
    ensures forall res, q :: h(res, q).query.Keys == {"q"} + extra.Keys
    ensures forall res, q :: "q" !in extra ==> h(res, q).query["q"] == encode(q)
    ensures forall res, q, k :: k in extra ==> h(res, q).query[k] == extra[k]
  {
    var h := (resource: string, query: Query) => Prepared(resource, Merge(map["q" := encode(query)], extra));
    assert forall q: Query :: map["q" := encode(q)].Keys == {"q"};
    h
  }

  /**
   * Whatever the call-time parameters, the encoded-query hook sends only
   * `q` and its own parameters, with `q` the encoding of the merged query.
   */
  lemma EncodedQuery(encode: Query -> string, url: string, call: Query, persistent: Query)
    ensures PrepareRequest(url, call, persistent, EncodedQueryHook(encode, map[])).query
            == map["q" := encode(Merge(call, persistent))]
    ensures PrepareRequest(url, call, persistent, EncodedQueryHook(encode, map["v" := "1.0"])).query
            == map["q" := encode(Merge(call, persistent)), "v" := "1.0"]
  {
  }
}
