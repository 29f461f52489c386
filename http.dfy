/** The per-request values the proxy works on: the inbound request, the parsed
    target URI, headers and responses, and the failures of the outbound send. */
module HttpTypes {
  import opened Wrappers

  type Byte = bv8

  /** An inbound request as the handler sees it: the method token (`httpMethod`), the path
      (`req.path()`, which never includes the query) and the query string. */
  datatype Request = Request(httpMethod: string, path: string, query: string)

  /** A parsed URI. Only scheme and host are inspected by the proxy; the rest
      (path and query) is carried through untouched. */
  datatype Uri = Uri(scheme: Option<string>, host: Option<string>, pathAndQuery: string)

  /** One header entry; a header map is a list of entries in iteration order. */
  datatype Header = Header(name: string, value: string)

  /** A response: status code, headers in order, and the body bytes. */
  datatype Response = Response(status: nat, headers: seq<Header>, body: seq<Byte>)

  /** Why the outbound client could not deliver a response. Each payload is
      the `to_string()` rendering of the underlying cause. */
  datatype SendError =
    | Url(cause: string)
    | Connect(cause: string)
    | Send(cause: string)
    | ResponseParse(cause: string)
    | Http(cause: string)
    | H2(cause: string)
    | Timeout
    | TunnelNotSupported
    | Body(cause: string)

  /** The URI parser of the `http` crate, taken as a parameter: it is library
      code whose internals are not modelled. */
  type UriParser = string -> Option<Uri>

  /** The outbound GET (without decompression) through the shared client:
      either the upstream response or a send failure. */
  type Sender = Uri -> Result<Response, SendError>
}
