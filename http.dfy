/**
  * The abstract exchange with the back end: what a response looks like to the client (a
  * status, a status text, a body that parses as JSON or not) and what the clients throw.
  */
module Http {
  import opened Wrappers

  /** One entry of an API error's `validations` list. */
  datatype Validation = Validation(field: string, message: string)

  /** The user record the login endpoint returns. */
  datatype User = User(id: int, name: string, email: string, userType: string)

  /**
    * A JSON object as the storefront reads it: only the fields it looks at. A string field
    * that is absent or empty is "" (both are falsy where the clients test them).
    */
  datatype Body = Body(error: string, message: string, validations: Option<seq<Validation>>,
                       token: string, user: Option<User>)

  /** `{}`. */
  const EmptyBody: Body := Body("", "", None, "", None)

  /** Body text that parses as JSON of the expected shape, or text `response.json()` rejects. */
  datatype Parsed<T> = Json(value: T) | NotJson(reason: string)

  datatype Response<T> = Response(status: int, statusText: string, body: Parsed<T>)

  /** `response.ok`: a status in the range 200-299. */
  predicate Ok<T>(r: Response<T>) {
    200 <= r.status <= 299
  }

  /** What `fetch` gives back: a response, or a rejection (network failure, abort). */
  datatype Outcome<T> = Responded(response: Response<T>) | FetchFailed(reason: string)

  /** The `response` property the TS client attaches to the errors it throws. */
  datatype ErrorResponse = ErrorResponse(status: int, data: Option<Body>)

  /**
    * A thrown value as `handleError` inspects it: its message ("" when it has none or is not
    * an object) and its `response`, if any.
    */
  datatype Thrown = Thrown(message: string, response: Option<ErrorResponse>)
}
