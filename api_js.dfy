/**
  * How the JavaScript API client (`api.js`) turns the outcome of one `fetch` into a value or
  * a thrown error: a non-OK response becomes a plain error with a message only, and anything
  * else that is thrown passes through unchanged.
  */
module ApiJs {
  import opened Wrappers
  import opened Http
  import Strings

  /** The body substituted when a non-OK response's body does not parse. */
  const UnknownError: string := "Erro desconhecido"

  /** The message of the error a non-OK response throws: the body's `error`, else the status. */
  function StatusErrorMessage(resp: Response<Body>): (m: string)
    ensures resp.body.NotJson? ==> m == UnknownError
    ensures resp.body.Json? && resp.body.value.error != "" ==> m == resp.body.value.error
    ensures resp.body.Json? && resp.body.value.error == "" ==> m == "HTTP " + Strings.IntToString(resp.status)
    ensures m != ""
  {
    var error := match resp.body
                 case Json(b) => b.error
                 case NotJson(_) => UnknownError;
    if error != "" then error else "HTTP " + Strings.IntToString(resp.status)
  }

  /** `makeRequest`'s result for one outcome: its resolved value, or what it throws. */
  function MakeRequestResult(outcome: Outcome<Body>): (r: Result<Body, Thrown>)
    ensures outcome.FetchFailed? ==> r == Failure(Thrown(outcome.reason, None))
    ensures outcome.Responded? && !Ok(outcome.response) ==>
      r == Failure(Thrown(StatusErrorMessage(outcome.response), None))
    ensures outcome.Responded? && Ok(outcome.response) ==>
      r == match outcome.response.body
           case Json(b) => Success(b)
           case NotJson(reason) => Failure(Thrown(reason, None))
  {
    match outcome
    case FetchFailed(reason) => Failure(Thrown(reason, None))
    case Responded(resp) =>
      if !Ok(resp) then Failure(Thrown(StatusErrorMessage(resp), None))
      else
        match resp.body
        case Json(b) => Success(b)
        case NotJson(reason) => Failure(Thrown(reason, None))
  }

  /** No error of the JS client carries a `response`. */
  lemma ErrorsCarryNoResponse(outcome: Outcome<Body>)
    ensures MakeRequestResult(outcome).Failure? ==> MakeRequestResult(outcome).error.response.None?
  {
  }

  /** The call succeeds exactly for an OK response whose body parses, 204 included. */
  lemma SucceedsIff(outcome: Outcome<Body>)
    ensures MakeRequestResult(outcome).Success? <==>
      outcome.Responded? && Ok(outcome.response) && outcome.response.body.Json?
  {
  }
}
