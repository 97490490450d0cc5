/**
 The incident.io API client's connection settings, request construction and
 the abstract transport outcome (incidentio/client.go), together with the
 client-side error values (incidentio/errors.go).
 */
module Api {
  import opened Wrappers

  /** Status codes the client compares against (section 15.3 and section 15.5.5 of RFC 9110). */
  const StatusOK: int := 200
  const StatusCreated: int := 201
  const StatusAccepted: int := 202
  const StatusNoContent: int := 204
  const StatusNotFound: int := 404

  /** The production API origin every new client starts with. */
  const HostURL: string := "https://api.incident.io"

  /** The fixed client-side timeout, in seconds. */
  const TimeoutSeconds: nat := 10

  const AuthorizationHeader: string := "Authorization"

  /** The authentication scheme prefix of section 2.1 of RFC 6750, with its separating space. */
  const BearerPrefix: string := "Bearer "

  /** The connection settings held by a client value. */
  datatype Client = Client(hostUrl: string, apiKey: string, timeoutSeconds: nat, debugHttp: bool)

  function NewClient(apiKey: string): Client {
    Client(HostURL, apiKey, TimeoutSeconds, false)
  }

  function WithHostURL(c: Client, url: string): Client {
    c.(hostUrl := url)
  }

  function WithDebug(c: Client, debug: bool): Client {
    c.(debugHttp := debug)
  }

  predicate HasPrefix(s: string, prefix: string) {
    |prefix| <= |s| && s[..|prefix|] == prefix
  }

  predicate HasSuffix(s: string, suffix: string) {
    |suffix| <= |s| && s[|s| - |suffix|..] == suffix
  }

  /**
   The URL a request goes to: the host, then a "/" unless the host already
   ends with one or the path already starts with one, then the path.
   The three postconditions pin the result down completely.
   */
  function JoinUrl(host: string, path: string): (url: string)
    ensures HasPrefix(url, host) && HasSuffix(url, path)
    ensures |url| == |host| + |path| + (if HasSuffix(host, "/") || HasPrefix(path, "/") then 0 else 1)
    ensures |url| > |host| + |path| ==> url[|host|] == '/'
  {
    var sep := if HasSuffix(host, "/") || HasPrefix(path, "/") then "" else "/";
    assert (host + sep + path)[..|host|] == host;
    assert (host + sep + path)[|host + sep + path| - |path|..] == path;
    host + sep + path
  }

  datatype Method = GET | POST | PUT | DELETE

  /** An outgoing request; `body` is the value serialised as its JSON body. */
  datatype Request<I> = Request(verb: Method, url: string, header: map<string, string>, body: Option<I>)

  /** `newRequest`: the joined URL, no headers yet. */
  function NewRequest<I>(c: Client, verb: Method, path: string, body: Option<I>): Request<I> {
    Request(verb, JoinUrl(c.hostUrl, path), map[], body)
  }

  /** The token of a bearer `Authorization` value, if it has that form. */
  function BearerToken(value: string): (token: Option<string>)
    ensures token.Some? <==> HasPrefix(value, BearerPrefix)
    ensures token.Some? ==> value == BearerPrefix + token.value
  {
    if HasPrefix(value, BearerPrefix) then
      assert value == BearerPrefix + value[|BearerPrefix|..];
      Some(value[|BearerPrefix|..])
    else
      None
  }

  /** The header `doRequest` sets on every request before sending it. */
  function Authorize<I>(c: Client, req: Request<I>): (r: Request<I>)
    ensures AuthorizationHeader in r.header
    ensures BearerToken(r.header[AuthorizationHeader]) == Some(c.apiKey)
    ensures r.header.Keys == req.header.Keys + {AuthorizationHeader}
    ensures forall h :: h in req.header && h != AuthorizationHeader ==> r.header[h] == req.header[h]
    ensures r.verb == req.verb && r.url == req.url && r.body == req.body
  {
    assert (BearerPrefix + c.apiKey)[..|BearerPrefix|] == BearerPrefix;
    assert (BearerPrefix + c.apiKey)[|BearerPrefix|..] == c.apiKey;
    req.(header := req.header[AuthorizationHeader := BearerPrefix + c.apiKey])
  }

  /** The request a client actually puts on the wire for a method, path and body. */
  function Issue<I>(c: Client, verb: Method, path: string, body: Option<I>): Request<I> {
    Authorize(c, NewRequest(c, verb, path, body))
  }

  /** One decoded sub-error of an API error body (`IncidentIOError`). */
  datatype SubError = SubError(code: string, message: string)

  /** An API error body (`IncidentIOErrorResponse`); `status` is the one written in the body. */
  datatype ApiError = ApiError(kind: string, status: int, requestId: string, errors: seq<SubError>)

  /**
   A response body: its raw text, what `json.Unmarshal` makes of it as the
   operation's target shape, and what it makes of it as an API error. Either
   decoding fails independently of the other: on text that is not JSON, and on
   a field whose JSON type does not match the one the Go struct declares.
   */
  datatype Body<R> = Body(raw: string, asTarget: Option<R>, asError: Option<ApiError>)

  /**
   What the transport gives back for a request: no response at all, a
   response whose body could not be read, or a status and a body.
   */
  datatype Reply<R> =
    | ConnectFailed
    | ReadFailed(status: int)
    | Received(status: int, body: Body<R>)

  /** The errors the client returns. */
  datatype ClientError =
      /** an empty id, rejected before any request is built */
    | MissingId
      /** the request could not be sent or its response body could not be read */
    | TransportFailed
      /** a body that is not well-formed JSON */
    | Undecodable
      /** a decoded API error body */
    | Api(error: ApiError)
      /** the "status: %d, body: %s" error of the per-kind accessors */
    | UnexpectedStatus(status: int, body: string)

  /** `NewErrors`: the API error a non-success body decodes to. */
  function DecodeError<R>(body: Body<R>): (e: ClientError)
    ensures e.Api? <==> body.asError.Some?
    ensures e.Api? ==> e.error == body.asError.value
    ensures !e.Api? ==> e == Undecodable
  {
    match body.asError
    case Some(a) => Api(a)
    case None => Undecodable
  }

  /** `json.Unmarshal` of a success body into the operation's target. */
  function DecodeTarget<R>(body: Body<R>): (r: Result<R, ClientError>)
    ensures r.Success? <==> body.asTarget.Some?
    ensures r.Success? ==> r.value == body.asTarget.value
    ensures r.Failure? ==> r.error == Undecodable
  {
    match body.asTarget
    case Some(t) => Success(t)
    case None => Failure(Undecodable)
  }

  /** The raw body text a response carries; a failed read yields none. */
  function RawOf<R>(reply: Reply<R>): string {
    if reply.Received? then reply.body.raw else ""
  }

  /**
   Whether an error is associated with the HTTP status `code`: a decoded API
   error by the status written in its body, a per-kind status error by the
   status of the response. No other error carries a status.
   */
  predicate IsErrorStatus(e: ClientError, code: int) {
    match e
    case Api(a) => a.status == code
    case UnexpectedStatus(s, _) => s == code
    case _ => false
  }

  /** One accessor call: the request it sent, if any, and what it returned. */
  datatype Call<I, R> = Call(sent: Option<Request<I>>, result: Result<R, ClientError>)

  /**
   Client configuration as seen through the requests a client issues; turning
   debugging on changes nothing on the wire.
   */
  lemma {:induction false} ClientConfiguration(apiKey: string, url: string, verb: Method, path: string)
    ensures Issue<()>(NewClient(apiKey), verb, path, None).url == JoinUrl(HostURL, path)
    ensures Issue<()>(WithHostURL(NewClient(apiKey), url), verb, path, None).url == JoinUrl(url, path)
    ensures BearerToken(Issue<()>(WithHostURL(NewClient(apiKey), url), verb, path, None).header[AuthorizationHeader]) == Some(apiKey)
    ensures WithHostURL(NewClient(apiKey), url).timeoutSeconds == TimeoutSeconds
    ensures !WithHostURL(NewClient(apiKey), url).debugHttp
    ensures WithDebug(NewClient(apiKey), true).debugHttp
    ensures Issue<()>(WithDebug(NewClient(apiKey), true), verb, path, None) == Issue<()>(NewClient(apiKey), verb, path, None)
  {
  }

  /** Removes one trailing slash, if there is one. */
  function TrimTrailingSlash(s: string): string {
    if HasSuffix(s, "/") then s[..|s| - 1] else s
  }

  /** Removes one leading slash, if there is one. */
  function TrimLeadingSlash(s: string): string {
    if HasPrefix(s, "/") then s[1..] else s
  }

  /** Unless both sides carry a slash, the join places exactly one slash between host and path. */
  lemma {:induction false} JoinUrlSingleSlash(host: string, path: string)
    requires !(HasSuffix(host, "/") && HasPrefix(path, "/"))
    ensures JoinUrl(host, path) == TrimTrailingSlash(host) + "/" + TrimLeadingSlash(path)
  {
    var url := JoinUrl(host, path);
    if HasSuffix(host, "/") {
      assert host == host[..|host| - 1] + "/";
      assert url == host + path;
    } else if HasPrefix(path, "/") {
      assert path == "/" + path[1..];
      assert url == host + path;
    } else {
      assert url == host + "/" + path;
    }
  }

  /** When both sides carry a slash, the join keeps both: the URL has "//" at the seam. */
  lemma {:induction false} JoinUrlDoubleSlash(host: string, path: string)
    requires HasSuffix(host, "/") && HasPrefix(path, "/")
    ensures JoinUrl(host, path) == host + path
    ensures JoinUrl(host, path)[|host| - 1] == '/' && JoinUrl(host, path)[|host|] == '/'
  {
    var url := JoinUrl(host, path);
    assert url == host + path;
    assert host[|host| - 1] == host[|host| - 1..][0];
    assert path[0] == path[..1][0];
  }

  /** A slash on both sides of the seam keeps "//"; a slash on neither side inserts one. */
  lemma JoinUrlExamples()
    ensures JoinUrl("https://api.example.com/", "/v1/x") == "https://api.example.com//v1/x"
    ensures JoinUrl("https://api.example.com", "v1/x") == "https://api.example.com/v1/x"
  {
    assert HasSuffix("https://api.example.com/", "/");
    assert !HasSuffix("https://api.example.com", "/");
    assert !HasPrefix("v1/x", "/");
  }
}
