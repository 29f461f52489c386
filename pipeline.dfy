/** The request pipeline of the proxy: the method gate, URL extraction and
    validation, the forward step with its error classification, their
    chaining, and the rendering of the outcome as the reply the caller gets. */
module Pipeline {
  import opened Wrappers
  import opened HttpTypes
  import opened ProxyErrors
  import Translator

  /** Method gate: only GET goes on, unchanged. */
  function IsGetMethod(req: Request): (r: Result<Request, ProxyError>)
    ensures r.Ok? <==> req.httpMethod == "GET"
    ensures r.Ok? ==> r.value == req
    ensures r.Err? ==> r.error == MethodNotSupported
  {
    if req.httpMethod == "GET" then Ok(req) else Err(MethodNotSupported)
  }

  /** Only the exact, lower-case schemes `http` and `https` are accepted; a URI
      without a scheme is not. */
  function IsValidScheme(scheme: Option<string>): (ok: bool)
    ensures ok <==> scheme == Some("http") || scheme == Some("https")
  {
    match scheme
    case Some(s) => s == "https" || s == "http"
    case None => false
  }

  /** URL extraction: drop the first character of the path and parse the
      rest; accept the result only with a host and a valid scheme. */
  function ParseUri(parse: UriParser, req: Request): (r: Result<Uri, ProxyError>)
    ensures r.Ok? ==> r.value.host.Some? && IsValidScheme(r.value.scheme)
    ensures r.Ok? ==> |req.path| > 0 && parse(req.path[1..]) == Some(r.value)
    ensures r.Err? ==> r.error == UnableToParseUri
    ensures r.Err? <==>
      || |req.path| == 0
      || parse(req.path[1..]).None?
      || parse(req.path[1..]).value.host.None?
      || !IsValidScheme(parse(req.path[1..]).value.scheme)
  {
    if |req.path| == 0 then Err(UnableToParseUri)
    else match parse(req.path[1..])
      case Some(parsed) =>
        if parsed.host != None && IsValidScheme(parsed.scheme) then Ok(parsed)
        else Err(UnableToParseUri)
      case None => Err(UnableToParseUri)
  }

  /** Transport-error classification: URL and connection failures carry
      their cause to the caller, every other failure becomes the opaque
      internal error. */
  function ClassifySendError(e: SendError): (p: ProxyError)
    ensures p.RequestError? <==> e.Url? || e.Connect?
    ensures p.RequestError? ==> p.reason == e.cause
    ensures !p.RequestError? ==> p == InternalServerError
  {
    match e
    case Url(cause) => RequestError(cause)
    case Connect(cause) => RequestError(cause)
    case _ => InternalServerError
  }

  /** The forward step: send the GET, classify a failure, translate a
      response. It never produces a gate or parse error. */
  function ProxyRequest(send: Sender, uri: Uri): (r: Result<Response, ProxyError>)
    ensures r.Ok? <==> send(uri).Ok?
    ensures r.Ok? ==> r.value == Translator.Translated(send(uri).value)
    ensures r.Err? ==> r.error == ClassifySendError(send(uri).error)
    ensures r.Err? ==> r.error.RequestError? || r.error == InternalServerError
  {
    match send(uri)
    case Ok(response) => Ok(Translator.Translated(response))
    case Err(e) => Err(ClassifySendError(e))
  }

  /** The whole pipeline: gate, then parse, then forward; the first error
      ends it. */
  function Proxy(parse: UriParser, send: Sender, req: Request): (r: Result<Response, ProxyError>)
    ensures req.httpMethod != "GET" ==> r == Err(MethodNotSupported)
    ensures r == Err(UnableToParseUri) <==> req.httpMethod == "GET" && ParseUri(parse, req).Err?
    ensures r.Ok? <==>
      req.httpMethod == "GET" && ParseUri(parse, req).Ok? && send(ParseUri(parse, req).value).Ok?
  {
    var checked :- IsGetMethod(req);
    var uri :- ParseUri(parse, checked);
    ProxyRequest(send, uri)
  }

  /** A body on the wire: the upstream stream relayed, or an error text. */
  datatype Body = Stream(bytes: seq<Byte>) | Text(text: string)

  /** What the caller receives for one proxied request. */
  datatype Reply = Reply(status: nat, headers: seq<Header>, body: Body)

  /** An error becomes its status and its message. */
  function ErrorReply(e: ProxyError): (reply: Reply)
    ensures reply.status == StatusOf(e) && reply.body == Text(Message(e))
  {
    Reply(StatusOf(e), [], Text(Message(e)))
  }

  /** The reply for one request routed into the proxy. Upstream bytes are
      relayed exactly when the pipeline succeeds, and then the CORS header is
      the last header; an error reply has an error status and no headers of
      the proxy's own (in particular no CORS header). */
  function Handle(parse: UriParser, send: Sender, req: Request): (reply: Reply)
    ensures reply.body.Stream? <==> Proxy(parse, send, req).Ok?
    ensures reply.body.Stream? ==>
      |reply.headers| > 0 && reply.headers[|reply.headers| - 1] == Translator.Cors
    ensures reply.body.Text? ==> reply.status in {400, 405, 500} && reply.headers == []
  {
    match Proxy(parse, send, req)
    case Ok(response) => Reply(response.status, response.headers, Stream(response.body))
    case Err(e) => ErrorReply(e)
  }

  /** Once the gate rejects the request, neither the parser nor the outbound
      client has any say in the outcome: the reply is 405 with the bare usage
      text. */
  lemma GateShortCircuits(parse1: UriParser, parse2: UriParser, send1: Sender, send2: Sender, req: Request)
    requires req.httpMethod != "GET"
    ensures Proxy(parse1, send1, req) == Proxy(parse2, send2, req) == Err(MethodNotSupported)
    ensures Handle(parse1, send1, req) == Reply(405, [], Text(Usage))
  {
  }

  /** Once parsing fails, no request goes out: the outcome does not depend on
      the outbound client, and the reply is 400. */
  lemma ParseShortCircuits(parse: UriParser, send1: Sender, send2: Sender, req: Request)
    requires req.httpMethod == "GET" && ParseUri(parse, req).Err?
    ensures Proxy(parse, send1, req) == Proxy(parse, send2, req) == Err(UnableToParseUri)
    ensures Handle(parse, send1, req).status == 400
  {
  }

  /** An empty path, and the path `/` whenever the parser rejects the empty
      string, are both refused with 400 by the proxy handler. This is about
      the handler on its own: the server routes every request for `/` to the
      usage text before it reaches the handler. */
  lemma EmptyTargetRejected(parse: UriParser, send: Sender, req: Request)
    requires req.httpMethod == "GET"
    requires req.path == "" || (req.path == "/" && parse("") == None)
    ensures Handle(parse, send, req) == ErrorReply(UnableToParseUri)
    ensures Handle(parse, send, req).status == 400
  {
  }

  /** A valid target is forwarded as parsed from the path remainder: the
      outbound GET goes to exactly that URI. */
  lemma ForwardsParsedUri(parse: UriParser, send: Sender, req: Request)
    requires req.httpMethod == "GET" && ParseUri(parse, req).Ok?
    ensures |req.path| > 0
    ensures Proxy(parse, send, req) == ProxyRequest(send, parse(req.path[1..]).value)
  {
  }

  /** Only the path is read: the inbound query string never influences the
      target or the outcome. */
  lemma QueryNotForwarded(parse: UriParser, send: Sender, req: Request, query: string)
    ensures Proxy(parse, send, req) == Proxy(parse, send, req.(query := query))
  {
  }

  /** A successful forward relays the upstream status and body unchanged and
      carries the rewritten headers. */
  lemma SuccessRelaysUpstream(parse: UriParser, send: Sender, req: Request)
    requires Proxy(parse, send, req).Ok?
    ensures var upstream := send(ParseUri(parse, req).value).value;
      var reply := Handle(parse, send, req);
      && reply.status == upstream.status
      && reply.body == Stream(upstream.body)
      && reply.headers == Translator.Filtered(upstream.headers) + [Translator.Cors]
  {
  }

  /** A URL or connection failure upstream gives 400 with the cause on the
      first line; any other transport failure gives 500 with only the usage
      text. */
  lemma SendFailureReply(parse: UriParser, send: Sender, req: Request)
    requires req.httpMethod == "GET" && ParseUri(parse, req).Ok?
    requires send(ParseUri(parse, req).value).Err?
    ensures var e := send(ParseUri(parse, req).value).error;
      var reply := Handle(parse, send, req);
      && (e.Url? || e.Connect? ==> reply == Reply(400, [], Text(e.cause + "\n" + Usage)))
      && (!(e.Url? || e.Connect?) ==> reply == Reply(500, [], Text(Usage)))
  {
  }
}
