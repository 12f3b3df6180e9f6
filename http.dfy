/** The parts of a Next.js API request and response the handlers use. */
module Http {

  /** `req.method`. */
  datatype Method = Get | Post | Put | Delete | OtherMethod(name: string)

  /** `res.status(status).json(body)`. */
  datatype Response<B> = Response(status: int, body: B)

  const OK: int := 200
  const Created: int := 201
  const BadRequest: int := 400
  const MethodNotAllowed: int := 405
  const ServerError: int := 500

  const NotAllowedMessage: string := "Method not allowed"
}
