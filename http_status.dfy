/** The status numbers of net/http and `http.StatusText`. */
module HttpStatus {
  const Continue := 100
  const SwitchingProtocols := 101
  const Processing := 102
  const EarlyHints := 103
  const OK := 200
  const Created := 201
  const Accepted := 202
  const NonAuthoritativeInfo := 203
  const NoContent := 204
  const ResetContent := 205
  const PartialContent := 206
  const MultiStatus := 207
  const AlreadyReported := 208
  const IMUsed := 226
  const MultipleChoices := 300
  const MovedPermanently := 301
  const Found := 302
  const SeeOther := 303
  const NotModified := 304
  const UseProxy := 305
  const TemporaryRedirect := 307
  const PermanentRedirect := 308
  const BadRequest := 400
  const Unauthorized := 401
  const PaymentRequired := 402
  const Forbidden := 403
  const NotFound := 404
  const MethodNotAllowed := 405
  const NotAcceptable := 406
  const ProxyAuthRequired := 407
  const RequestTimeout := 408
  const Conflict := 409
  const Gone := 410
  const LengthRequired := 411
  const PreconditionFailed := 412
  const RequestEntityTooLarge := 413
  const RequestURITooLong := 414
  const UnsupportedMediaType := 415
  const RequestedRangeNotSatisfiable := 416
  const ExpectationFailed := 417
  const Teapot := 418
  const MisdirectedRequest := 421
  const UnprocessableEntity := 422
  const Locked := 423
  const FailedDependency := 424
  const TooEarly := 425
  const UpgradeRequired := 426
  const PreconditionRequired := 428
  const TooManyRequests := 429
  const RequestHeaderFieldsTooLarge := 431
  const UnavailableForLegalReasons := 451
  const InternalServerError := 500
  const NotImplemented := 501
  const BadGateway := 502
  const ServiceUnavailable := 503
  const GatewayTimeout := 504
  const HTTPVersionNotSupported := 505
  const VariantAlsoNegotiates := 506
  const InsufficientStorage := 507
  const LoopDetected := 508
  const NotExtended := 510
  const NetworkAuthenticationRequired := 511

  /** The reason phrases of `http.StatusText`. */
  const ReasonPhrases: map<int, string> := map[
    100 := "Continue",
    101 := "Switching Protocols",
    102 := "Processing",
    103 := "Early Hints",
    200 := "OK",
    201 := "Created",
    202 := "Accepted",
    203 := "Non-Authoritative Information",
    204 := "No Content",
    205 := "Reset Content",
    206 := "Partial Content",
    207 := "Multi-Status",
    208 := "Already Reported",
    226 := "IM Used",
    300 := "Multiple Choices",
    301 := "Moved Permanently",
    302 := "Found",
    303 := "See Other",
    304 := "Not Modified",
    305 := "Use Proxy",
    307 := "Temporary Redirect",
    308 := "Permanent Redirect",
    400 := "Bad Request",
    401 := "Unauthorized",
    402 := "Payment Required",
    403 := "Forbidden",
    404 := "Not Found",
    405 := "Method Not Allowed",
    406 := "Not Acceptable",
    407 := "Proxy Authentication Required",
    408 := "Request Timeout",
    409 := "Conflict",
    410 := "Gone",
    411 := "Length Required",
    412 := "Precondition Failed",
    413 := "Request Entity Too Large",
    414 := "Request URI Too Long",
    415 := "Unsupported Media Type",
    416 := "Requested Range Not Satisfiable",
    417 := "Expectation Failed",
    418 := "I'm a teapot",
    421 := "Misdirected Request",
    422 := "Unprocessable Entity",
    423 := "Locked",
    424 := "Failed Dependency",
    425 := "Too Early",
    426 := "Upgrade Required",
    428 := "Precondition Required",
    429 := "Too Many Requests",
    431 := "Request Header Fields Too Large",
    451 := "Unavailable For Legal Reasons",
    500 := "Internal Server Error",
    501 := "Not Implemented",
    502 := "Bad Gateway",
    503 := "Service Unavailable",
    504 := "Gateway Timeout",
    505 := "HTTP Version Not Supported",
    506 := "Variant Also Negotiates",
    507 := "Insufficient Storage",
    508 := "Loop Detected",
    510 := "Not Extended",
    511 := "Network Authentication Required"
  ]

  /** `http.StatusText`: the reason phrase, "" for an unknown status. */
  function StatusText(code: int): string {
    if code in ReasonPhrases then ReasonPhrases[code] else ""
  }

  /** The phrases the response factory falls back to, one lookup each. */
  lemma BadRequestText()
    ensures StatusText(BadRequest) == "Bad Request"
  {
  }

  lemma UnauthorizedText()
    ensures StatusText(Unauthorized) == "Unauthorized"
  {
  }

  lemma ServiceUnavailableText()
    ensures StatusText(ServiceUnavailable) == "Service Unavailable"
  {
  }

  lemma ForbiddenText()
    ensures StatusText(Forbidden) == "Forbidden"
  {
  }

  lemma NotFoundText()
    ensures StatusText(NotFound) == "Not Found"
  {
  }

  lemma ConflictText()
    ensures StatusText(Conflict) == "Conflict"
  {
  }
}
