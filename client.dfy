/**
 * The client: base-URL normalisation in NewClient, and Do, the request
 * executor every service method goes through. url.Parse, the JSON encoder and
 * decoder, the HTTP send and the response-dump hook are not modelled; what
 * each of them yields for one call is an input, an Env.
 */
module Client {
  import opened Wrappers
  import opened Text
  import opened Http
  import opened Urls
  import opened Transport

  /** What json.Decoder.Decode did with a response body: a value, io.EOF (empty body), or another error. */
  datatype Decoded<T> = Ok(value: T) | Eof | Malformed(cause: string)

  /**
   * A received response: its status line, the dump hook's error (if the hook
   * failed), the body decoded as a raw JSON value (what an API error keeps),
   * and the body decoded into the caller's output.
   */
  datatype Reply<T> = Reply(head: HttpResponse, dumpFailure: Option<string>, errorBody: Decoded<string>, body: Decoded<T>)

  /**
   * What http.Client.Do gave back: an error, with the response it may return
   * alongside (when a redirect policy fails), or a response.
   */
  datatype Sent<T> = SendFailed(cause: string, partial: Option<HttpResponse>) | Received(reply: Reply<T>)

  /**
   * The outcomes of the collaborators Do calls: BaseURL.Parse(path) (the
   * resolved URL or the parser's error), the JSON encoding of `in` (consulted
   * only when there is an `in`), the error of http.NewRequest if it failed,
   * and the send.
   */
  datatype Env<T> = Env(resolved: Result<string, string>, encoded: Result<string, string>, creation: Option<string>, sent: Sent<T>)

  /** The arguments of one Do call: method, relative path, and whether `in` and `out` are non-nil. */
  datatype Call = Call(verb: string, path: string, hasIn: bool, hasOut: bool)

  /** Error: the raw JSON body of a non-2xx response. */
  datatype ApiError = ApiError(raw: string)
  {
    /** Error() is the raw message, byte for byte. */
    function Error(): string
    {
      raw
    }
  }

  /** The errors Do returns, one per stage, each wrapping its cause. */
  datatype DoError =
    | ParsingPath(path: string, cause: string)
    | EncodingBody(cause: string)
    | CreatingRequest(cause: string)
    | Sending(cause: string)
    | Dumping(cause: string)
    | Api(status: string, api: ApiError)
    | Decoding(cause: string)

  /** `%q` of a string, without Go's escaping of quotes and non-printable characters. */
  function Quoted(s: string): string
  {
    "\"" + s + "\""
  }

  /** The text of an error Do returns. An API error reads "<Status>: <raw body>". */
  function Message(e: DoError): (m: string)
    ensures e.ParsingPath? ==>
      var p := "parsing " + Quoted(e.path) + ": ";
      StartsWith(m, p) && EndsWith(m, e.cause) && |m| == |p| + |e.cause|
    ensures e.EncodingBody? ==>
      StartsWith(m, "encoding request body: ") && EndsWith(m, e.cause) && |m| == |"encoding request body: "| + |e.cause|
    ensures e.CreatingRequest? ==>
      StartsWith(m, "creating request: ") && EndsWith(m, e.cause) && |m| == |"creating request: "| + |e.cause|
    ensures e.Sending? ==>
      StartsWith(m, "sending request: ") && EndsWith(m, e.cause) && |m| == |"sending request: "| + |e.cause|
    ensures e.Dumping? ==>
      StartsWith(m, "dumping response: ") && EndsWith(m, e.cause) && |m| == |"dumping response: "| + |e.cause|
    ensures e.Api? ==>
      StartsWith(m, e.status + ": ") && EndsWith(m, e.api.Error()) && |m| == |e.status + ": "| + |e.api.Error()|
    ensures e.Decoding? ==>
      StartsWith(m, "decoding response body: ") && EndsWith(m, e.cause) && |m| == |"decoding response body: "| + |e.cause|
  {
    match e
    case ParsingPath(path, cause) => "parsing " + Quoted(path) + ": " + cause
    case EncodingBody(cause) => "encoding request body: " + cause
    case CreatingRequest(cause) => "creating request: " + cause
    case Sending(cause) => "sending request: " + cause
    case Dumping(cause) => "dumping response: " + cause
    case Api(status, api) => status + ": " + api.Error()
    case Decoding(cause) => "decoding response body: " + cause
  }

  /** Page: the pagination fields of a list response. */
  datatype Page = Page(count: int, next: Option<string>, previous: Option<string>)

  const ZeroPage: Page := Page(0, None, None)

  /** What Do returns in place of *Response: nil, or a Response around a possibly nil *http.Response. */
  datatype Envelope = NoEnvelope | Envelope(http: Option<HttpResponse>)

  /**
   * The result of one Do call: the envelope, the error, the value decoded
   * into `out` (None when `out` was left untouched) and the request as it
   * left the client's transport chain (None when nothing was sent).
   */
  datatype Outcome<T> = Outcome(envelope: Envelope, err: Option<DoError>, out: Option<T>, wire: Option<Forward>)

  /** The 2xx success class (section 15.3 of RFC 9110). */
  predicate IsSuccess(code: int)
  {
    200 <= code <= 299
  }

  /** The raw message a non-2xx body leaves in Error; a body that does not decode leaves it empty. */
  function RawOf(d: Decoded<string>): string
  {
    if d.Ok? then d.value else ""
  }

  /** The request http.NewRequest builds, with Content-Type set when there is a body. */
  function NewRequest(verb: string, url: string, body: Option<string>): (r: Request)
    ensures r.verb == verb && r.url == url && r.body == body
    ensures Get(r.header, ContentType) == (if body.Some? then ApplicationJson else "")
    ensures Get(r.header, Authorization) == ""
    ensures r.header.Keys == (if body.Some? then {ContentType} else {})
    ensures body.Some? ==> r.header[ContentType] == [ApplicationJson]
  {
    var req := Request(verb, url, map[], body);
    if body.Some? then req.(header := Set(req.header, ContentType, ApplicationJson)) else req
  }

  /** The request-building stages failed, so Do returns a nil *Response. */
  predicate FailsBeforeSending<T>(call: Call, env: Env<T>)
  {
    env.resolved.Failure? || (call.hasIn && env.encoded.Failure?) || env.creation.Some?
  }

  /**
   * Do as a decision procedure over the stages' outcomes, for a client whose
   * dump hook is or is not set and whose transport is `transport`.
   */
  function Execute<T>(dumpHook: bool, transport: Transport, call: Call, env: Env<T>): (o: Outcome<T>)
    // failures before the send: nil *Response, an error, nothing sent
    ensures o.envelope.NoEnvelope? <==> FailsBeforeSending(call, env)
    ensures o.envelope.NoEnvelope? ==> o.err.Some? && o.out.None? && o.wire.None?
    // the request that goes out: the client's method, the resolved URL, the encoded body, JSON content type iff there is a body
    ensures o.wire.Some? <==> !FailsBeforeSending(call, env)
    ensures o.wire.Some? ==>
      o.wire.value == Deliver(transport, NewRequest(call.verb, env.resolved.value, if call.hasIn then Some(env.encoded.value) else None))
    ensures o.wire.Some? ==>
      var r := o.wire.value.req;
      r.verb == call.verb && r.url == env.resolved.value &&
      r.body == (if call.hasIn then Some(env.encoded.value) else None) &&
      Get(r.header, ContentType) == (if call.hasIn then ApplicationJson else "")
    // a send failure: the envelope carries whatever the client returned, nothing is decoded
    ensures !FailsBeforeSending(call, env) && env.sent.SendFailed? ==>
      o.envelope.http == env.sent.partial && o.err == Some(Sending(env.sent.cause)) && o.out.None?
    // a response: the envelope always holds it
    ensures !FailsBeforeSending(call, env) && env.sent.Received? ==> o.envelope.http == Some(env.sent.reply.head)
    // a failed dump hook wins over the status
    ensures !FailsBeforeSending(call, env) && env.sent.Received? && dumpHook && env.sent.reply.dumpFailure.Some? ==>
      o.err == Some(Dumping(env.sent.reply.dumpFailure.value))
    // a non-2xx status is always an error whose text is "<Status>: <raw body>"
    ensures !FailsBeforeSending(call, env) && env.sent.Received? && !(dumpHook && env.sent.reply.dumpFailure.Some?) &&
            !IsSuccess(env.sent.reply.head.statusCode) ==>
      o.err.Some? && o.err.value.Api? && o.out.None? &&
      o.err.value.api.Error() == RawOf(env.sent.reply.errorBody) &&
      Message(o.err.value) == env.sent.reply.head.status + ": " + RawOf(env.sent.reply.errorBody)
    // nil error exactly when a 2xx response passed the dump hook and its body was not malformed for a non-nil out
    ensures o.err.None? <==>
      !FailsBeforeSending(call, env) && env.sent.Received? && !(dumpHook && env.sent.reply.dumpFailure.Some?) &&
      IsSuccess(env.sent.reply.head.statusCode) && !(call.hasOut && env.sent.reply.body.Malformed?)
    // the error kinds are never confused: each stage's failure has its own variant
    // the stages before the send are checked in order: path, then body (only with an `in`), then request
    ensures env.resolved.Failure? ==> o.err == Some(ParsingPath(call.path, env.resolved.error))
    ensures env.resolved.Success? && call.hasIn && env.encoded.Failure? ==> o.err == Some(EncodingBody(env.encoded.error))
    ensures env.resolved.Success? && !(call.hasIn && env.encoded.Failure?) && env.creation.Some? ==>
      o.err == Some(CreatingRequest(env.creation.value))
    ensures FailsBeforeSending(call, env) ==>
      o.err.value.ParsingPath? || o.err.value.EncodingBody? || o.err.value.CreatingRequest?
    ensures o.err.Some? && o.err.value.Api? <==>
      !FailsBeforeSending(call, env) && env.sent.Received? && !(dumpHook && env.sent.reply.dumpFailure.Some?) &&
      !IsSuccess(env.sent.reply.head.statusCode)
    // only a non-EOF decode failure of a 2xx body into a non-nil out is a decoding error
    ensures o.err.Some? && o.err.value.Decoding? <==>
      !FailsBeforeSending(call, env) && env.sent.Received? && !(dumpHook && env.sent.reply.dumpFailure.Some?) &&
      IsSuccess(env.sent.reply.head.statusCode) && call.hasOut && env.sent.reply.body.Malformed?
    ensures o.err.Some? && o.err.value.Decoding? ==> o.err.value.cause == env.sent.reply.body.cause
    // out is written exactly when the call succeeded with a decoded value
    ensures o.out.Some? <==> o.err.None? && call.hasOut && env.sent.reply.body.Ok?
    ensures o.out.Some? ==> o.out.value == env.sent.reply.body.value
  {
    if env.resolved.Failure? then Outcome(NoEnvelope, Some(ParsingPath(call.path, env.resolved.error)), None, None)
    else if call.hasIn && env.encoded.Failure? then Outcome(NoEnvelope, Some(EncodingBody(env.encoded.error)), None, None)
    else if env.creation.Some? then Outcome(NoEnvelope, Some(CreatingRequest(env.creation.value)), None, None)
    else
      var req := NewRequest(call.verb, env.resolved.value, if call.hasIn then Some(env.encoded.value) else None);
      var wire := Some(Deliver(transport, req));
      match env.sent
      case SendFailed(cause, partial) => Outcome(Envelope(partial), Some(Sending(cause)), None, wire)
      case Received(reply) =>
        var envelope := Envelope(Some(reply.head));
        if dumpHook && reply.dumpFailure.Some? then Outcome(envelope, Some(Dumping(reply.dumpFailure.value)), None, wire)
        else if !IsSuccess(reply.head.statusCode) then
          Outcome(envelope, Some(Api(reply.head.status, ApiError(RawOf(reply.errorBody)))), None, wire)
        else if !call.hasOut then Outcome(envelope, None, None, wire)
        else match reply.body
          case Ok(v) => Outcome(envelope, None, Some(v), wire)
          case Eof => Outcome(envelope, None, None, wire)
          case Malformed(cause) => Outcome(envelope, Some(Decoding(cause)), None, wire)
  }

  /** A 404 whose body is {"detail":"not found"} is an error whose text carries that body verbatim. */
  lemma NotFoundCarriesBody<T>(dumpHook: bool, transport: Transport, call: Call, env: Env<T>)
    requires !FailsBeforeSending(call, env) && env.sent.Received? && env.sent.reply.dumpFailure.None?
    requires env.sent.reply.head == HttpResponse(404, "404 Not Found")
    requires env.sent.reply.errorBody == Ok("{\"detail\":\"not found\"}")
    ensures var o := Execute(dumpHook, transport, call, env);
      o.envelope.http == Some(HttpResponse(404, "404 Not Found")) &&
      o.err.Some? && o.err.value.Api? && EndsWith(Message(o.err.value), "{\"detail\":\"not found\"}")
  {
  }

  /** *http.Client: the Transport field is what Login replaces. */
  class HttpClient {
    var transport: Transport

    constructor ()
      ensures transport == Nil
    {
      transport := Nil;
    }
  }

  /** Response: the embedded *http.Response and the Page a list call fills in. */
  class Response {
    const http: Option<HttpResponse>
    var page: Page

    constructor (http: Option<HttpResponse>)
      ensures this.http == http && page == ZeroPage
    {
      this.http := http;
      page := ZeroPage;
    }
  }

  /** The envelope and error a method returned are the ones `o` describes. */
  predicate Reports<T>(o: Outcome<T>, res: Response?, err: Option<DoError>)
    reads res
  {
    (res == null <==> o.envelope.NoEnvelope?) &&
    (res != null ==> res.http == o.envelope.http) &&
    err == o.err
  }

  /** service: the one value AuthService, WebhookService and RepositoryService share. */
  class Service {
    var client: Client

    constructor (client: Client)
      ensures this.client == client
    {
      this.client := client;
    }
  }

  class Client {
    var http: HttpClient?
    var baseUrl: Url
    var auth: Service?
    var webhooks: Service?
    var dumpHook: bool

    constructor (baseUrl: Url)
      ensures this.baseUrl == baseUrl && http == null && auth == null && webhooks == null && !dumpHook
    {
      this.baseUrl := baseUrl;
      http := null;
      auth := null;
      webhooks := null;
      dumpHook := false;
    }

    /** The transport Do sends through: a nil http.Client is http.DefaultClient, whose Transport is nil. */
    function TransportOf(): Transport
      reads this, http
    {
      if http == null then Nil else http.transport
    }

    /** Do: the staged pipeline with early returns, proved equal to Execute. */
    method Do<T>(call: Call, env: Env<T>) returns (res: Response?, err: Option<DoError>, out: Option<T>)
      ensures var o := Execute(dumpHook, TransportOf(), call, env);
        Reports(o, res, err) && out == o.out
      ensures res != null ==> fresh(res) && res.page == ZeroPage
    {
      out := None;
      if env.resolved.Failure? {
        return null, Some(ParsingPath(call.path, env.resolved.error)), None;
      }
      var body: Option<string> := None;
      if call.hasIn {
        if env.encoded.Failure? {
          return null, Some(EncodingBody(env.encoded.error)), None;
        }
        body := Some(env.encoded.value);
      }
      if env.creation.Some? {
        return null, Some(CreatingRequest(env.creation.value)), None;
      }
      var req := Request(call.verb, env.resolved.value, map[], body);
      if call.hasIn {
        req := req.(header := Set(req.header, ContentType, ApplicationJson));
      }
      assert req == NewRequest(call.verb, env.resolved.value, body);

      match env.sent {
        case SendFailed(cause, partial) =>
          res := new Response(partial);
          err := Some(Sending(cause));
        case Received(reply) =>
          res := new Response(Some(reply.head));
          if dumpHook && reply.dumpFailure.Some? {
            err := Some(Dumping(reply.dumpFailure.value));
            return;
          }
          if !IsSuccess(reply.head.statusCode) {
            err := Some(Api(reply.head.status, ApiError(RawOf(reply.errorBody))));
            return;
          }
          err := None;
          if call.hasOut {
            match reply.body {
              case Ok(v) => out := Some(v);
              case Eof =>
              case Malformed(cause) => err := Some(Decoding(cause));
            }
          }
      }
    }
  }

  /**
   * NewClient: parse the URI (its outcome is `parsed`), force the base path to
   * end in '/', and wire Auth and Webhooks to one shared service.
   */
  method NewClient(uri: string, parsed: Result<Url, string>) returns (c: Client?, err: Option<string>)
    ensures parsed.Failure? ==> c == null && err == Some("parsing " + Quoted(uri) + ": " + parsed.error)
    ensures parsed.Success? ==>
      c != null && fresh(c) && err.None? &&
      c.baseUrl == parsed.value.(path := Normalize(parsed.value.path)) &&
      c.http == null && !c.dumpHook &&
      c.auth != null && fresh(c.auth) && c.webhooks == c.auth && c.auth.client == c
  {
    if parsed.Failure? {
      c, err := null, Some("parsing " + Quoted(uri) + ": " + parsed.error);
    } else {
      var base := WithTrailingSlash(parsed.value);
      c := new Client(base);
      var s := new Service(c);
      c.auth := s;
      c.webhooks := s;
      err := None;
    }
  }

  /** The base URL with "/" appended to its path unless the path already ends with one. */
  method WithTrailingSlash(u: Url) returns (base: Url)
    ensures base == u.(path := Normalize(u.path))
  {
    base := u;
    if !EndsWith(base.path, "/") {
      base := base.(path := base.path + "/");
    }
  }

  /** NewDefaultClient: a client for https://hub.docker.com/, whose path is already "/". */
  method NewDefaultClient() returns (c: Client)
    ensures fresh(c) && c.baseUrl == Url("https", "hub.docker.com", "/") && c.http == null
    ensures c.auth != null && c.webhooks == c.auth && c.auth.client == c
  {
    var parsed: Result<Url, string> := Success(Url("https", "hub.docker.com", "/"));
    var client, _ := NewClient("https://hub.docker.com/", parsed);
    c := client;
  }
}
