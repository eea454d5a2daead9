/**
 * The reusable HTTP request client: a base URL, default headers and an injectable transport;
 * `Get`/`Post` build a request, send it through the transport once and classify the outcome.
 */
module RequestClient {
  import opened Wrappers
  import KeyOrder
  import Strings
  import UrlQuery
  import JsonObject

  type Bytes = seq<bv8>

  /** `http.Header`: each header name maps to its values. */
  type Header = map<string, seq<string>>

  datatype Method = GET | POST

  /** What the transport gives back for one request: a transport-level error, or a completed exchange. */
  datatype Exchange = TransportErr(message: string) | Completed(status: int, body: Bytes)

  /** The client's own response type: the status code and the raw body bytes. */
  datatype Response = Response(statusCode: int, data: Bytes)

  /** The Go pair `(*Response, error)`, of which exactly one is non-nil. */
  datatype Reply = Replied(response: Response) | Failed(message: string)

  /** The request handed to the transport. */
  datatype HttpRequest = HttpRequest(verb: Method, url: string, rawQuery: string, header: Header, body: Option<string>)

  const ContentType := "Content-Type"
  const JsonMediaType := "application/json"

  function TrimTrailingSlash(s: string): string {
    if |s| > 0 && s[|s| - 1] == '/' then s[..|s| - 1] else s
  }

  function TrimLeadingSlash(s: string): string {
    if |s| > 0 && s[0] == '/' then s[1..] else s
  }

  /** The base URL with the path appended at exactly one `/`. */
  function JoinPath(base: string, path: string): (url: string)
    ensures url == TrimTrailingSlash(base) + "/" + TrimLeadingSlash(path)
  {
    var baseSlash := |base| > 0 && base[|base| - 1] == '/';
    var pathSlash := |path| > 0 && path[0] == '/';
    if baseSlash && pathSlash then base + path[1..]
    else if baseSlash || pathSlash then base + path
    else base + "/" + path
  }

  /** The host of an absolute URL: what follows `scheme://` up to the next `/`. */
  function Host(url: string): string {
    var (_, rest) := Strings.Cut(url, ':');
    if |rest| >= 2 && rest[..2] == "//" then Strings.Cut(rest[2..], '/').0 else ""
  }

  /** The path of an absolute URL: from the first `/` after the host on, or empty. */
  function UrlPath(url: string): string {
    var (_, rest) := Strings.Cut(url, ':');
    if |rest| >= 2 && rest[..2] == "//" && '/' in rest[2..] then "/" + Strings.Cut(rest[2..], '/').1 else ""
  }

  /** Joining a path to a base URL `scheme://host/` keeps the host and makes the path `/` plus the given path. */
  lemma JoinPathParts(scheme: string, host: string, path: string)
    requires ':' !in scheme && '/' !in host
    ensures Host(JoinPath(scheme + "://" + host + "/", path)) == host
    ensures UrlPath(JoinPath(scheme + "://" + host + "/", path)) == "/" + TrimLeadingSlash(path)
  {
    var base := scheme + "://" + host + "/";
    var url := JoinPath(base, path);
    var rest := "//" + host + "/" + TrimLeadingSlash(path);
    assert TrimTrailingSlash(base) == scheme + "://" + host;
    assert url == scheme + [':'] + rest;
    Strings.CutAt(scheme, ':', rest);
    assert rest[..2] == "//";
    assert rest[2..] == host + ['/'] + TrimLeadingSlash(path);
    Strings.CutAt(host, '/', TrimLeadingSlash(path));
  }

  /** With the base URL and path of the tests, the request goes to host `example.com`, path `/fake`. */
  lemma ExampleJoin()
    ensures Host(JoinPath("https://example.com/", "fake")) == "example.com"
    ensures UrlPath(JoinPath("https://example.com/", "fake")) == "/fake"
  {
    assert "https://example.com/" == "https" + "://" + "example.com" + "/";
    JoinPathParts("https", "example.com", "fake");
  }

  /**
   * How the client reads an exchange: a transport error is a failure carrying the transport's
   * message verbatim; any completed exchange, whatever its status, is a response with that status
   * and exactly those bytes.
   */
  function Classify(x: Exchange): (r: Reply)
    ensures r.Failed? <==> x.TransportErr?
    ensures x.TransportErr? ==> r.message == x.message
    ensures x.Completed? ==> r.response.statusCode == x.status && r.response.data == x.body
  {
    match x
    case TransportErr(message) => Failed(message)
    case Completed(status, body) => Replied(Response(status, body))
  }

  /**
   * What the request built for (verb, path, query, body) on a client with base URL `base` and
   * default headers `headers` must look like.
   */
  predicate Describes(req: HttpRequest, verb: Method, base: string, headers: Header,
                      path: string, query: UrlQuery.Values, body: Option<JsonObject.Object>)
  {
    && req.verb == verb
    && req.url == JoinPath(base, path)
    && UrlQuery.Decode(req.rawQuery) == UrlQuery.Present(query)
    && req.header == (if body.Some? then headers[ContentType := [JsonMediaType]] else headers)
    && (req.body.Some? <==> body.Some?)
    && (body.Some? ==> JsonObject.Decode(req.body.value) == Some(body.value))
  }

  /**
   * The transport seam as the tests use it: a double that records every request it is given and
   * answers each one with the outcome it was programmed with.
   */
  class Transport {
    var outcome: Exchange
    var calls: seq<HttpRequest>

    constructor (outcome: Exchange)
      ensures this.outcome == outcome && calls == []
    {
      this.outcome := outcome;
      calls := [];
    }

    method Do(req: HttpRequest) returns (x: Exchange)
      modifies this
      ensures calls == old(calls) + [req] && outcome == old(outcome)
      ensures x == outcome
    {
      calls := calls + [req];
      x := outcome;
    }
  }

  class Client {
    var baseURL: string
    var headers: Header
    var transport: Transport

    /** `NewClient`; the transport that would talk to the network is passed in. */
    constructor (baseURL: string, transport: Transport)
      ensures this.baseURL == baseURL && headers == map[] && this.transport == transport
    {
      this.baseURL := baseURL;
      headers := map[];
      this.transport := transport;
    }

    /** Replaces the transport; every later request goes through `t` only. */
    method SetClient(t: Transport)
      modifies this
      ensures transport == t && baseURL == old(baseURL) && headers == old(headers)
    {
      transport := t;
    }

    /** Replaces the whole set of default headers. */
    method SetHeaders(h: Header)
      modifies this
      ensures headers == h && baseURL == old(baseURL) && transport == old(transport)
    {
      headers := h;
    }

    /**
     * Builds the request, hands it to the transport exactly once and classifies the outcome. The
     * query and the JSON body are written with their keys in an unspecified order.
     */
    method Request(verb: Method, path: string, query: UrlQuery.Values, body: Option<JsonObject.Object>)
      returns (reply: Reply)
      modifies transport
      ensures |transport.calls| == |old(transport.calls)| + 1
      ensures transport.calls[..|old(transport.calls)|] == old(transport.calls)
      ensures Describes(transport.calls[|transport.calls| - 1], verb, baseURL, headers, path, query, body)
      ensures transport.outcome == old(transport.outcome)
      ensures reply == Classify(transport.outcome)
    {
      var queryKeys := KeyOrder.Enumerate(query.Keys);
      var rawQuery := UrlQuery.Encode(query, queryKeys);
      UrlQuery.DecodeEncode(query, queryKeys);
      var header := headers;
      var payload: Option<string> := None;
      if body.Some? {
        var bodyKeys := KeyOrder.Enumerate(body.value.Keys);
        payload := Some(JsonObject.Encode(body.value, bodyKeys));
        JsonObject.DecodeEncode(body.value, bodyKeys);
        header := header[ContentType := [JsonMediaType]];
      }
      var req := HttpRequest(verb, JoinPath(baseURL, path), rawQuery, header, payload);
      var x := transport.Do(req);
      reply := Classify(x);
    }

    method Get(path: string, query: UrlQuery.Values) returns (reply: Reply)
      modifies transport
      ensures |transport.calls| == |old(transport.calls)| + 1
      ensures transport.calls[..|old(transport.calls)|] == old(transport.calls)
      ensures Describes(transport.calls[|transport.calls| - 1], GET, baseURL, headers, path, query, None)
      ensures transport.outcome == old(transport.outcome)
      ensures reply == Classify(transport.outcome)
    {
      reply := Request(GET, path, query, None);
    }

    /** `Post`; a nil body is `None`. */
    method Post(path: string, query: UrlQuery.Values, body: Option<JsonObject.Object>) returns (reply: Reply)
      modifies transport
      ensures |transport.calls| == |old(transport.calls)| + 1
      ensures transport.calls[..|old(transport.calls)|] == old(transport.calls)
      ensures Describes(transport.calls[|transport.calls| - 1], POST, baseURL, headers, path, query, body)
      ensures transport.outcome == old(transport.outcome)
      ensures reply == Classify(transport.outcome)
    {
      reply := Request(POST, path, query, body);
    }
  }

  /**
   * The shape of the method tests: a client on `https://example.com/` whose transport answers
   * 200, asked for `fake` with one query value, sends one GET to the joined URL (host
   * `example.com`, path `/fake` by ExampleJoin) carrying that value, and replies with a response
   * and no error.
   */
  method ExampleGet() returns (reply: Reply, sent: HttpRequest)
    ensures reply == Replied(Response(200, []))
    ensures sent.verb == GET && sent.url == JoinPath("https://example.com/", "fake")
    ensures UrlQuery.Decode(sent.rawQuery) == map["queryKey" := ["queryValue"]]
  {
    var transport := new Transport(Completed(200, []));
    var client := new Client("https://example.com/", transport);
    var query := map["queryKey" := ["queryValue"]];
    reply := client.Get("fake", query);
    sent := transport.calls[0];
    assert UrlQuery.Present(query) == query;
  }
}
