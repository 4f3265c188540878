/** The HTTP-facing failure every component raises: a status code and a reason. */
module Http {

  /** A ResponseStatusException: the HTTP status it carries and its reason text. */
  datatype StatusError = StatusError(status: int, reason: string)

  const BAD_REQUEST: int := 400
  const INTERNAL_SERVER_ERROR: int := 500
  const BAD_GATEWAY: int := 502
}
