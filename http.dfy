/** What the handlers see of HTTP: the request method and a status code paired
    with the JSON value sent back. */
module Http {

  /** The request methods; the handlers single out OPTIONS, GET and POST. */
  datatype Verb = Options | Get | Post | Put | Patch | Delete | Head

  /** `res.status(status).json(body)`, or `.end()` when the body is empty. */
  datatype Response<+B> = Response(status: int, body: B)

  const OK: int := 200
  /** A client error in the request content (section 15.5.1 of RFC 9110). */
  const BAD_REQUEST: int := 400
  /** The method is not supported by the resource (section 15.5.6 of RFC 9110). */
  const METHOD_NOT_ALLOWED: int := 405

  const NOT_ALLOWED_ERROR: string := "Method not allowed"
}
