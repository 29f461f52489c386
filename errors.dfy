/** The closed error taxonomy of the proxy, its rendering as text and its
    mapping to an HTTP status code. */
module ProxyErrors {

  /** The usage text that every error message ends with. */
  const Usage: string := "Usage: GET /URL\n"

  datatype ProxyError =
    | MethodNotSupported
    | UnableToParseUri
    | RequestError(reason: string)
    | InternalServerError

  /** The `Display` rendering of an error: an optional first line, then the
      usage text. */
  function Message(e: ProxyError): (m: string)
    ensures |Usage| <= |m| && m[|m| - |Usage|..] == Usage
  {
    match e
    case UnableToParseUri => "Unable to parse URL\n" + Usage
    case RequestError(reason) => reason + "\n" + Usage
    case _ => Usage
  }

  /** The status of the error response. */
  function StatusOf(e: ProxyError): (status: nat)
    ensures status == 405 <==> e.MethodNotSupported?
    ensures status == 400 <==> e.UnableToParseUri? || e.RequestError?
    ensures status == 500 <==> e.InternalServerError?
  {
    match e
    case MethodNotSupported => 405
    case UnableToParseUri => 400
    case RequestError(_) => 400
    case InternalServerError => 500
  }

  /** Only the two errors the caller can act on get a first line: the message
      is the bare usage text exactly for `MethodNotSupported` and
      `InternalServerError`; a parse failure says so on its first line, and a
      `RequestError` shows its reason first. */
  lemma MessageIsUsageOnly(e: ProxyError)
    ensures Message(e) == Usage <==> e.MethodNotSupported? || e.InternalServerError?
    ensures e.UnableToParseUri? ==> Message(e) == "Unable to parse URL\n" + Usage
    ensures e.RequestError? ==> Message(e) == e.reason + "\n" + Usage
    ensures e.RequestError? ==>
      Message(e)[..|e.reason|] == e.reason && Message(e)[|e.reason|] == '\n'
  {
  }

  /** Client errors (4xx) are exactly the errors other than the opaque
      internal one, which is the only server error (5xx). */
  lemma StatusClass(e: ProxyError)
    ensures 400 <= StatusOf(e) < 600
    ensures StatusOf(e) < 500 <==> !e.InternalServerError?
  {
  }
}
