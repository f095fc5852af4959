/**
 * The REST client: a root object bound to a transport, resources that
 * accumulate path segments, and the pipeline that turns a call on a resource
 * into one GET request whose body goes through a result hook.
 */
module ApiBee {
  import opened Wrappers
  import opened Http
  import opened Paths
  import opened Queries

  /** A request shaped by the request hook: the path and query to send. */
  datatype Prepared = Prepared(path: string, query: Query)

  /** The request hook: shapes (resource URL, merged query) into the request to send. */
  type BuildHook = (string, Query) -> Prepared

  /** The default request hook returns its inputs unchanged. */
  function DefaultBuildRequest(resource: string, query: Query): (r: Prepared)
    ensures r.path == resource && r.query == query
  {
    Prepared(resource, query)
  }

  /** The default result hook returns the body unchanged. */
  function DefaultProcessResult(result: string): (r: string)
    ensures r == result
  {
    result
  }

  /**
   * The request a call sends: the URL and the call-time parameters updated
   * with the persistent ones, passed through the request hook.
   */
  function PrepareRequest(url: string, call: Query, persistent: Query, hook: BuildHook): (r: Prepared)
    ensures exists q: Query ::
              && q.Keys == call.Keys + persistent.Keys
              && (forall k :: k in persistent ==> q[k] == persistent[k])
              && (forall k :: k in call && k !in persistent ==> q[k] == call[k])
              && r == hook(url, q)
  {
    hook(url, Merge(call, persistent))
  }

  /**
   * With the default hook the request goes to the URL itself, carries every
   * call-time and persistent name, and the persistent value on a shared name.
   */
  lemma DefaultRequest(url: string, call: Query, persistent: Query)
    ensures PrepareRequest(url, call, persistent, DefaultBuildRequest).path == url
    ensures PrepareRequest(url, call, persistent, DefaultBuildRequest).query.Keys == call.Keys + persistent.Keys
    ensures forall k :: k in persistent ==> PrepareRequest(url, call, persistent, DefaultBuildRequest).query[k] == persistent[k]
    ensures forall k :: k in call && k !in persistent ==> PrepareRequest(url, call, persistent, DefaultBuildRequest).query[k] == call[k]
  {
  }

  /** With the default hook and no persistent parameters, the call-time query is sent unchanged. */
  lemma DefaultRequestFresh(url: string, call: Query)
    ensures PrepareRequest(url, call, map[], DefaultBuildRequest) == Prepared(url, call)
  {
  }

  class Client<R> {
    /** The base address the transport is bound to. */
    const baseUri: string
    const transport: Transport
    /** Persistent query parameters, merged into every call. */
    var query: Query
    var buildRequest: BuildHook
    var processResult: string -> R
    /** The body of the most recent delivered response. */
    var lastResult: Option<string>
    /** The most recent delivered response. */
    var lastResponse: Option<Response>

    /**
     * A client with no persistent parameters and no response yet; the hooks
     * are what a subclass would override, `DefaultBuildRequest` and
     * `DefaultProcessResult` when it does not.
     */
    constructor (baseUri: string, transport: Transport, buildRequest: BuildHook, processResult: string -> R)
      ensures this.baseUri == baseUri && this.transport == transport
      ensures this.buildRequest == buildRequest && this.processResult == processResult
      ensures query == map[] && lastResult == None && lastResponse == None
    {
      this.baseUri := baseUri;
      this.transport := transport;
      this.buildRequest := buildRequest;
      this.processResult := processResult;
      query := map[];
      lastResult := None;
      lastResponse := None;
    }

    /** A resource of the one segment `key`, bound to this client; by attribute or by index alike. */
    function Access(key: Key): (r: Resource<R>)
      ensures r.client == this && r.segments == [key]
    {
      Resource(this, [key])
    }

    /**
     * The state after sending (verb, path, q): for a delivered response it
     * is recorded and its body, passed through the result hook, returned; a
     * failed request raises and leaves the recorded response as it was.
     * Nothing else of the client changes.
     */
    twostate predicate Dispatched(verb: string, path: string, q: Query, new out: Result<R, Error>)
      reads this
    {
      && query == old(query)
      && buildRequest == old(buildRequest)
      && processResult == old(processResult)
      && match transport(baseUri, verb, path, q)
         case Delivered(resp) =>
           lastResponse == Some(resp) && lastResult == Some(resp.body)
           && out == Success(processResult(resp.body))
         case Failed(status, body) =>
           lastResponse == old(lastResponse) && lastResult == old(lastResult)
           && out == Failure(RequestFailed(status, body))
    }

    /** Sends one request through the transport and records its response. */
    method Request(verb: string, path: string, q: Query) returns (out: Result<R, Error>)
      modifies this`lastResponse, this`lastResult
      ensures Dispatched(verb, path, q, out)
    {
      match transport(baseUri, verb, path, q)
      case Failed(status, body) =>
        out := Failure(RequestFailed(status, body));
      case Delivered(resp) =>
        lastResponse := Some(resp);
        lastResult := Some(resp.body);
        out := Success(processResult(resp.body));
    }

    /** A GET of `path` with the parameters `q`. */
    method Get(path: string, q: Query) returns (out: Result<R, Error>)
      modifies this`lastResponse, this`lastResult
      ensures Dispatched("GET", path, q, out)
    {
      out := Request("GET", path, q);
    }

    /**
     * Calling the client itself: a GET of what the request hook makes of "/"
     * and the call-time parameters updated with the persistent ones.
     */
    method Call(call: Query) returns (out: Result<R, Error>)
      modifies this`lastResponse, this`lastResult
      ensures var req := PrepareRequest("/", call, old(query), old(buildRequest));
              Dispatched("GET", req.path, req.query, out)
    {
      var merged := call + query;
      var req := buildRequest("/", merged);
      out := Get(req.path, req.query);
    }
  }

  /** A handle on a path relative to a client. */
  datatype Resource<R> = Resource(client: Client<R>, segments: seq<Key>) {

    /**
     * A new resource one segment longer, on the same client; this one is a
     * value and is left as it was. By attribute or by index alike.
     */
    function Access(key: Key): (r: Resource<R>)
      ensures r.client == client
      ensures |r.segments| == |segments| + 1
      ensures r.segments[..|segments|] == segments && r.segments[|segments|] == key
    {
      Resource(client, segments + [key])
    }

    /** The URL of this resource, or the error joining its segments raises. */
    function Url(): (r: Result<string, Error>)
      ensures r.Success? <==> forall j :: 0 <= j < |segments| ==> segments[j].Name?
      ensures r.Success? ==> r.value == "/" + Join(Names(segments), "/")
    {
      ResourceUrl(segments)
    }

    /**
     * The call-time parameters updated with the client's persistent ones as
     * they are at the time of the call.
     */
    function GetQuery(call: Query): (r: Query)
      reads client
      ensures r.Keys == call.Keys + client.query.Keys
      ensures forall k :: k in client.query ==> r[k] == client.query[k]
      ensures forall k :: k in call && k !in client.query ==> r[k] == call[k]
    {
      Merge(call, client.query)
    }

    /**
     * The entries of the resource seen as a mapping: a resource holds none,
     * so reading an attribute the client lacks gives an empty mapping.
     */
    function Entries(): (m: Query)
      ensures |m| == 0
    {
      map[]
    }

    /**
     * Calling the resource: joins the URL (raising before anything is sent
     * if a segment is not a string), merges the parameters, lets the
     * request hook shape the request and sends it as a GET.
     */
    method Call(call: Query) returns (out: Result<R, Error>)
      modifies client`lastResponse, client`lastResult
      ensures ResourceUrl(segments).Failure? ==>
                out == Failure(ResourceUrl(segments).error) && unchanged(client)
      ensures ResourceUrl(segments).Success? ==>
                var req := PrepareRequest(ResourceUrl(segments).value, call, old(client.query), old(client.buildRequest));
                client.Dispatched("GET", req.path, req.query, out)
    {
      var url := Url();
      if url.Failure? {
        out := Failure(url.error);
        return;
      }
      var merged := GetQuery(call);
      var req := client.buildRequest(url.value, merged);
      out := client.Get(req.path, req.query);
    }
  }

  /**
   * Accessing `keys` one after another starting from a resource.
   */
  function AccessAll<R>(r: Resource<R>, keys: seq<Key>): Resource<R>
    decreases |keys|
  {
    if |keys| == 0 then r else AccessAll(r.Access(keys[0]), keys[1..])
  }

  /** A chain of accesses appends its keys in order and stays on the same client. */
  lemma {:induction false} AccessAllAppends<R>(r: Resource<R>, keys: seq<Key>)
    ensures AccessAll(r, keys).client == r.client
    ensures AccessAll(r, keys).segments == r.segments + keys
    decreases |keys|
  {
    if |keys| > 0 {
      AccessAllAppends(r.Access(keys[0]), keys[1..]);
      assert r.segments + [keys[0]] + keys[1..] == r.segments + keys;
    }
  }

  /**
   * A chain started on the client with `key` and continued with `keys` has
   * exactly those keys as segments, in order, and is bound to the client.
   */
  lemma ChainFromClient<R>(c: Client<R>, key: Key, keys: seq<Key>)
    ensures AccessAll(c.Access(key), keys).client == c
    ensures AccessAll(c.Access(key), keys).segments == [key] + keys
  {
    AccessAllAppends(c.Access(key), keys);
  }

  /** The URL the client sends for itself is the URL of the resource with no segments. */
  lemma RootIsEmptyResource<R>(c: Client<R>)
    ensures Resource(c, []).Url() == Success("/")
  {
    RootUrl();
  }

  /**
   * Merging the mapping of an attribute the client lacks into a query leaves
   * the query as it was.
   */
  lemma UnsetAttributeMergesToNothing<R>(c: Client<R>, attr: string, q: Query)
    ensures Merge(q, c.Access(Name(attr)).Entries()) == q
  {
  }
}
