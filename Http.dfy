/** What a route handler answers. */
module Http {
  import opened Json

  datatype Response =
    /** `json(body)`: status 200 with `body` serialised. */
    | JsonBody(body: Json)
    /** `throw error(status, message)`: the framework answers `status` with `{ message }`. */
    | HttpError(status: int, message: string)
    /** `new Response(body, { status, headers })`, built by hand. */
    | Raw(status: int, headers: map<string, string>, body: Json)

  /**
   * What the framework answers for an exception no handler caught, such as
   * destructuring a `null` request body.
   */
  const InternalError := HttpError(500, "Internal Error")

  function Status(r: Response): int
  {
    match r
    case JsonBody(_) => 200
    case HttpError(status, _) => status
    case Raw(status, _, _) => status
  }
}
