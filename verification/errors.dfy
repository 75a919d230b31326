/** The gateway's uniform error envelope `{error, message, timestamp, ...}` and the result of a
    gateway call. Messages and timestamps are not modelled; the code, the HTTP status and the
    kind-specific field are. */
module Errors {
  import opened Wrappers
  import opened JsonModel

  datatype ErrorCode =
    | ServiceNotFound
    | MethodNotAllowed
    | ResourceNotFound
    | ValidationError
    | ServiceError
    | ServiceUnavailable
    | GatewayTimeout
    | RequestFailed
    | TokenExpired
    | InvalidToken
    | InvalidCredentials
  {
    /** The text of the envelope's "error" field. */
    function Name(): string {
      match this
      case ServiceNotFound => "SERVICE_NOT_FOUND"
      case MethodNotAllowed => "METHOD_NOT_ALLOWED"
      case ResourceNotFound => "RESOURCE_NOT_FOUND"
      case ValidationError => "VALIDATION_ERROR"
      case ServiceError => "SERVICE_ERROR"
      case ServiceUnavailable => "SERVICE_UNAVAILABLE"
      case GatewayTimeout => "GATEWAY_TIMEOUT"
      case RequestFailed => "REQUEST_FAILED"
      case TokenExpired => "TOKEN_EXPIRED"
      case InvalidToken => "INVALID_TOKEN"
      case InvalidCredentials => "INVALID_CREDENTIALS"
    }

    /** The status each kind is meant to travel with: 401 for credential problems, the client
        statuses 404/405/422, and for backend failures the gateway statuses of section 15.6 of
        RFC 9110 (502 Bad Gateway, 503 Service Unavailable, 504 Gateway Timeout). */
    function Status(): int {
      match this
      case ServiceNotFound | ResourceNotFound => 404
      case MethodNotAllowed => 405
      case ValidationError => 422
      case ServiceError => 502
      case ServiceUnavailable | RequestFailed => 503
      case GatewayTimeout => 504
      case TokenExpired | InvalidToken | InvalidCredentials => 401
    }
  }

  /** Distinct kinds are told apart on the wire by their "error" field. */
  lemma NamesDistinct(a: ErrorCode, b: ErrorCode)
    requires a != b
    ensures a.Name() != b.Name()
  {
  }

  /** The kind-specific field an envelope carries besides error, message and timestamp. */
  datatype Detail =
    | NoDetail
    | AvailableServices(names: seq<string>)
    | RequestedPath(path: string)
    | ValidationDetails(details: Option<Json>)
    | ServiceUrl(url: string)

  datatype ErrorEnvelope = Envelope(code: ErrorCode, status: int, detail: Detail)

  /** The status raised with an envelope agrees with its code. */
  predicate WellFormed(e: ErrorEnvelope) {
    e.status == e.code.Status()
  }

  /** What the gateway hands back: a pass-through JSON response, an error envelope, or an
      exception nothing in the gateway catches (which the web framework turns into its own
      internal-error response). */
  datatype GatewayResult =
    | Ok(status: int, body: Option<Json>)
    | Err(error: ErrorEnvelope)
    | Unhandled
}
