# actix-cors GET proxy — Dafny model

This project models the decision logic of a single-endpoint HTTP forwarding
proxy written in Rust with actix-web. An inbound request whose path encodes a
target URL (`GET /https://example.com/page`) passes through the proxy pipeline
in four stages:

1. the **method gate** lets only `GET` through;
2. **URL extraction** drops the first character of the path, parses the rest as
   a URI, and accepts it only with a host and the scheme `http` or `https`;
3. the **forward step** sends the GET and classifies transport failures;
4. the **response translator** copies the upstream status, copies every
   upstream header except `connection`, `access-control-allow-origin` and
   `content-length`, appends `access-control-allow-origin: *`, and relays the
   body.

Each stage either passes its value on or ends the pipeline with a
`ProxyError`. The error is rendered as a status code and a text message.

Layout:

- `wrappers.dfy` (`Wrappers`): `Option`, and `Result` with `:-` support. This
  stands in for the future's `and_then` chaining.
- `http.dfy` (`HttpTypes`): request, URI, header, response and send-error
  values. The URI parser and the outbound client are function-typed
  parameters (`UriParser`, `Sender`).
- `errors.dfy` (`ProxyErrors`): the error taxonomy, its `Display` text and its
  status codes.
- `translator.dfy` (`Translator`): the header filter as a function, the
  rewrite loop as a method proved against it, and lemmas about both.
- `pipeline.dfy` (`Pipeline`): the gate, URL extraction, scheme check,
  error classification, forward step, their chaining, and the reply the
  caller receives.

Header names are compared the way the `http` crate compares a `HeaderName`
with a string: equal up to ASCII case (`Translator.NameIs`). For the
normalised lower-case names a `HeaderName` holds, this is plain equality.

The query string is not forwarded. The handler reads only `req.path()`
(src/main.rs:49), and in actix that path excludes the query. So
`GET /https://api.example.com/data?limit=10` is proxied to
`https://api.example.com/data`, even though one might expect the
`?limit=10` to be kept. The model follows the code.
`Pipeline.QueryNotForwarded` states that the outcome does not depend on the
query.

Error replies carry no `access-control-allow-origin` header. Only the success
path adds it (src/main.rs:88). `Pipeline.Handle` states this.

## Model

| member | source | states |
|---|---|---|
| `Pipeline.IsGetMethod` | src/main.rs:38-44 | the request passes, unchanged, exactly when its method is `GET`; otherwise the error is `MethodNotSupported` |
| `Pipeline.IsValidScheme` | src/main.rs:57-63 | true exactly for `Some("http")` and `Some("https")`: case-sensitive, and a URI without a scheme (`None`) is rejected |
| `Pipeline.ParseUri` | src/main.rs:46-55 | fails with `UnableToParseUri` exactly when the path is empty, the remainder does not parse, or the parsed URI lacks a host or a valid scheme; on success the URI is the parse of the path minus its first character, with a host and a valid scheme |
| `Pipeline.ClassifySendError` | src/main.rs:73-77 | `Url` and `Connect` failures become `RequestError` carrying their cause; every other failure becomes `InternalServerError` |
| `Pipeline.ProxyRequest` | src/main.rs:65-91 | succeeds exactly when the send does, with the translated upstream response; a failure is classified and is never a gate or parse error |
| `Pipeline.Proxy` | src/main.rs:24-31 | a non-GET request yields `MethodNotSupported`; `UnableToParseUri` arises exactly for a GET whose URL extraction fails; success requires all three stages to succeed |
| `Pipeline.ErrorReply` | src/main.rs:101-122 | an error reply has the error's status and its message as the body |
| `Pipeline.Handle` | src/main.rs:24-31 | upstream bytes are relayed exactly when the pipeline succeeds, with the CORS header last; an error reply has status 400, 405 or 500 and no headers of the proxy's own |
| `Pipeline.GateShortCircuits` | src/main.rs:28-30 | once the gate rejects, the parser and the outbound client do not affect the outcome; the reply is 405 with the bare usage text |
| `Pipeline.ParseShortCircuits` | src/main.rs:28-30 | once URL extraction fails, the outbound client does not affect the outcome (no request is sent); the reply is 400 |
| `Pipeline.EmptyTargetRejected` | src/main.rs:46-55 | an empty path, and the path `/` when the parser rejects the empty string, get the 400 `UnableToParseUri` reply from the handler on its own (the server answers `/` itself before the handler) |
| `Pipeline.ForwardsParsedUri` | src/main.rs:29-30 | a GET with a valid target is forwarded to exactly the URI parsed from the path remainder |
| `Pipeline.QueryNotForwarded` | src/main.rs:49 | the outcome is the same whatever the inbound query string is |
| `Pipeline.SuccessRelaysUpstream` | src/main.rs:78-89 | on success the reply has the upstream status, the upstream body, and the filtered upstream headers followed by the CORS header |
| `Pipeline.SendFailureReply` | src/main.rs:73-77 | a URL or connection failure gives 400 with the cause, a newline and the usage text; any other transport failure gives 500 with the usage text only |
| `Translator.Filtered` | src/main.rs:80-84 | the surviving headers are upstream headers outside the blocklist, and there are no more of them than upstream |
| `Translator.Translate` | src/main.rs:79-89 | the rewrite loop builds the specified response: upstream status, the filtered headers in order, then `access-control-allow-origin: *`, and the upstream body |
| `Translator.FilteredAppend` | src/main.rs:80-87 | filtering distributes over concatenation, so surviving headers keep their upstream relative order |
| `Translator.FilteredCount` | src/main.rs:80-87 | each non-blocklisted header keeps all of its occurrences and each blocklisted header keeps none |
| `Translator.FilteredIsSubsequence` | src/main.rs:80-87 | the surviving headers form a subsequence of the upstream headers |
| `Translator.FilteredIdempotent` | src/main.rs:80-84 | filtering an already filtered list changes nothing |
| `Translator.TranslatedHeaders` | src/main.rs:79-88 | status and body are unchanged; no `connection` or `content-length` header in any case spelling; exactly one `access-control-allow-origin`, the last, with value `*`; before it exactly the filtered upstream headers |
| `Translator.TranslatedIdempotent` | src/main.rs:80-88 | translating an already translated response gives the same response |
| `ProxyErrors.Message` | src/main.rs:101-111 | every error message ends with the usage text |
| `ProxyErrors.MessageIsUsageOnly` | src/main.rs:101-111 | the message is exactly the usage text only for `MethodNotSupported` and `InternalServerError`; `UnableToParseUri` renders as `Unable to parse URL`, a newline and the usage text; `RequestError(reason)` renders as the reason, a newline and the usage text, so the reason comes first followed by a newline |
| `ProxyErrors.StatusOf` | src/main.rs:113-122 | 405 exactly for `MethodNotSupported`, 400 exactly for `UnableToParseUri` and `RequestError`, 500 exactly for `InternalServerError` |
| `ProxyErrors.StatusClass` | src/main.rs:113-122 | every error status is 4xx or 5xx, and only `InternalServerError` is a server error |

## Left out

- Process start-up (src/main.rs:9-22): reading `PORT` (default `8080`),
  binding the socket, printing the start-up line, and routing every request
  for `/`, whatever its method, to the usage text with status 200
  (src/main.rs:14 has no method guard). This is I/O and framework routing.
  The model starts at the handler the catch-all route calls, which never
  sees the path `/`; so `POST /` gets 200, not the 405 of
  `Pipeline.GateShortCircuits`.
- The outbound send (src/main.rs:69-72) is the `Sender` parameter. It is
  network I/O through the actix client, which is not part of this model. The
  GET method and the disabled decompression are not represented.
- The `SendError` variants after `Url` and `Connect` follow the client
  library's send-error type, which is not part of this model. Only the
  `Url`/`Connect`/other split matters to the proxy. Each cause string stands
  for the underlying error's `to_string()`.
- Body streaming (src/main.rs:89): the body is a finite byte sequence relayed
  unchanged. Incremental delivery and bounded memory are not modelled.
- The `http` crate's URI parser is the `UriParser` parameter. Its grammar is
  library code, so facts about particular strings (such as the empty string
  failing to parse) appear as hypotheses of lemmas.
- `req.path()[1..]` slices bytes in Rust. It would panic if the first
  character took more than one byte. The model drops the first character of
  a `string`. Paths the framework hands over begin with `/`, where the two
  agree.
- Header order on the wire: the builder stores headers in a map keyed by
  name, so only the order of the values under one name is kept. The model's
  header list stands for the order of the builder calls (src/main.rs:86,
  88). "In upstream order" and "the CORS header last" are statements about
  those calls; the order across different names in the response the caller
  receives is not modelled.
- The framework's rendering of an error as a response also sets a
  plain-text content-type header. The model keeps only the status and the
  message body.
- Futures and asynchronous chaining are modelled as sequential `Result`
  chaining. Concurrency, cancellation, connection pooling and timeouts have
  no code in the handler and are not modelled.
