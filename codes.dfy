/** codes.go: the machine-readable error codes of the error envelope. */
module Codes {
  import Status = HttpStatus

  /** Declared in codes.go, but absent from the mapping. */
  const CodeRequestHeaderFieldsTooLarge := "REQUEST_HEADER_FIELDS_TOO_LARGE"
  /** Declared in codes.go, but absent from the mapping. */
  const CodeUnavailableForLegalReasons := "UNAVAILABLE_FOR_LEGAL_REASONS"

  /** `HTTPCodesMapping`: status number to code, 2xx to 5xx. */
  const CodesMapping: map<int, string> := map[
    200 := "OK",
    201 := "CREATED",
    202 := "ACCEPTED",
    204 := "NO_CONTENT",
    301 := "MOVED_PERMANENTLY",
    302 := "FOUND",
    304 := "NOT_MODIFIED",
    307 := "TEMPORARY_REDIRECT",
    308 := "PERMANENT_REDIRECT",
    400 := "BAD_REQUEST",
    401 := "UNAUTHORIZED",
    403 := "FORBIDDEN",
    404 := "NOT_FOUND",
    405 := "METHOD_NOT_ALLOWED",
    409 := "CONFLICT",
    410 := "GONE",
    411 := "LENGTH_REQUIRED",
    412 := "PRECONDITION_FAILED",
    413 := "PAYLOAD_TOO_LARGE",
    414 := "URI_TOO_LONG",
    415 := "UNSUPPORTED_MEDIA_TYPE",
    422 := "UNPROCESSABLE_ENTITY",
    423 := "LOCKED",
    425 := "TOO_EARLY",
    426 := "UPGRADE_REQUIRED",
    428 := "PRECONDITION_REQUIRED",
    429 := "TOO_MANY_REQUESTS",
    500 := "INTERNAL_SERVER_ERROR",
    501 := "NOT_IMPLEMENTED",
    502 := "BAD_GATEWAY",
    503 := "SERVICE_UNAVAILABLE",
    504 := "GATEWAY_TIMEOUT",
    505 := "HTTP_VERSION_NOT_SUPPORTED",
    506 := "VARIANT_ALSO_NEGOTIATES",
    507 := "INSUFFICIENT_STORAGE",
    508 := "LOOP_DETECTED",
    510 := "NOT_EXTENDED",
    511 := "NETWORK_AUTHENTICATION_REQUIRED"
  ]

  /** The reading of the mapping in the other direction, code to status. */
  const StatusesByCode: map<string, int> := map[
    "OK" := 200,
    "CREATED" := 201,
    "ACCEPTED" := 202,
    "NO_CONTENT" := 204,
    "MOVED_PERMANENTLY" := 301,
    "FOUND" := 302,
    "NOT_MODIFIED" := 304,
    "TEMPORARY_REDIRECT" := 307,
    "PERMANENT_REDIRECT" := 308,
    "BAD_REQUEST" := 400,
    "UNAUTHORIZED" := 401,
    "FORBIDDEN" := 403,
    "NOT_FOUND" := 404,
    "METHOD_NOT_ALLOWED" := 405,
    "CONFLICT" := 409,
    "GONE" := 410,
    "LENGTH_REQUIRED" := 411,
    "PRECONDITION_FAILED" := 412,
    "PAYLOAD_TOO_LARGE" := 413,
    "URI_TOO_LONG" := 414,
    "UNSUPPORTED_MEDIA_TYPE" := 415,
    "UNPROCESSABLE_ENTITY" := 422,
    "LOCKED" := 423,
    "TOO_EARLY" := 425,
    "UPGRADE_REQUIRED" := 426,
    "PRECONDITION_REQUIRED" := 428,
    "TOO_MANY_REQUESTS" := 429,
    "INTERNAL_SERVER_ERROR" := 500,
    "NOT_IMPLEMENTED" := 501,
    "BAD_GATEWAY" := 502,
    "SERVICE_UNAVAILABLE" := 503,
    "GATEWAY_TIMEOUT" := 504,
    "HTTP_VERSION_NOT_SUPPORTED" := 505,
    "VARIANT_ALSO_NEGOTIATES" := 506,
    "INSUFFICIENT_STORAGE" := 507,
    "LOOP_DETECTED" := 508,
    "NOT_EXTENDED" := 510,
    "NETWORK_AUTHENTICATION_REQUIRED" := 511
  ]

  /** `CodeFromStatus`: the mapped code, or the empty code for an unmapped status. */
  function CodeFromStatus(status: int): (code: string)
    ensures status in CodesMapping ==> code == CodesMapping[status]
    ensures status !in CodesMapping ==> code == ""
  {
    if status in CodesMapping then CodesMapping[status] else ""
  }

  /** The mapping is bidirectional: reading a mapped status's code back gives
      the status. */
  lemma {:induction false} CodesRoundTrip(status: int)
    requires status in CodesMapping
    ensures CodesMapping[status] in StatusesByCode && StatusesByCode[CodesMapping[status]] == status
  {
  }

  /** So no two statuses share a code. */
  lemma {:induction false} CodesInjective(a: int, b: int)
    requires a in CodesMapping && b in CodesMapping && a != b
    ensures CodeFromStatus(a) != CodeFromStatus(b)
  {
    CodesRoundTrip(a);
    CodesRoundTrip(b);
  }

  /** Every mapped status has a non-empty code, so the empty code means
      exactly "not in the mapping". */
  lemma {:induction false} CodeEmptyIffUnmapped(status: int)
    ensures CodeFromStatus(status) == "" <==> status !in CodesMapping
  {
    if status in CodesMapping {
      CodesRoundTrip(status);
      assert "" !in StatusesByCode;
    }
  }

  /** 431 and 451 have code constants but no mapping entry; 413 and 422 use
      the names PAYLOAD_TOO_LARGE and UNPROCESSABLE_ENTITY. */
  lemma {:induction false} NotableCodes()
    ensures CodeFromStatus(Status.RequestHeaderFieldsTooLarge) == ""
    ensures CodeFromStatus(Status.UnavailableForLegalReasons) == ""
    ensures CodeFromStatus(Status.RequestEntityTooLarge) == "PAYLOAD_TOO_LARGE"
    ensures CodeFromStatus(Status.UnprocessableEntity) == "UNPROCESSABLE_ENTITY"
  {
    Unmapped431And451();
    Mapped(Status.RequestEntityTooLarge, "PAYLOAD_TOO_LARGE");
    Mapped(Status.UnprocessableEntity, "UNPROCESSABLE_ENTITY");
  }

  /** One status of the table, looked up on its own. */
  lemma Mapped(status: int, code: string)
    requires status in CodesMapping && CodesMapping[status] == code
    ensures CodeFromStatus(status) == code
  {
  }

  lemma Unmapped431And451()
    ensures Status.RequestHeaderFieldsTooLarge == 431 && 431 !in CodesMapping
    ensures Status.UnavailableForLegalReasons == 451 && 451 !in CodesMapping
  {
  }
}
