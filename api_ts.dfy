/**
  * How the TypeScript API client (`api.ts`) turns the outcome of one `fetch` into a value or
  * a thrown error: every error it throws carries a `response` with a status and a data body.
  */
module ApiTs {
  import opened Wrappers
  import opened Http
  import Strings

  const DefaultErrorMessage: string := "Erro na requisição"
  const NetworkMessage: string := "Erro de conexão com o servidor"
  const NetworkDetail: string := "Não foi possível conectar ao servidor. Verifique sua conexão."

  /** The data a non-OK response gets when its body does not parse. */
  function HttpErrorData(status: int, statusText: string): (b: Body)
    ensures b.error == "http_error" && b.validations.None?
    ensures b.message == "Erro HTTP " + Strings.IntToString(status) + ": " + statusText
  {
    Body("http_error", "Erro HTTP " + Strings.IntToString(status) + ": " + statusText, None, "", None)
  }

  /** The error that replaces anything thrown without a `response`. */
  const NetworkError: Thrown :=
    Thrown(NetworkMessage, Some(ErrorResponse(0, Some(Body("network_error", NetworkDetail, None, "", None)))))

  /** The error thrown for a non-OK response whose (parsed or substituted) body is `data`. */
  function StatusError(status: int, data: Body): (e: Thrown)
    ensures e.response == Some(ErrorResponse(status, Some(data)))
    ensures data.message != "" ==> e.message == data.message
    ensures data.message == "" ==> e.message == DefaultErrorMessage
  {
    Thrown(if data.message != "" then data.message else DefaultErrorMessage, Some(ErrorResponse(status, Some(data))))
  }

  /** `makeRequest`'s result for one outcome: its resolved value, or what it throws. */
  function MakeRequestResult(outcome: Outcome<Body>): (r: Result<Body, Thrown>)
    ensures outcome.FetchFailed? ==> r == Failure(NetworkError)
    ensures outcome.Responded? && !Ok(outcome.response) ==>
      r == Failure(StatusError(outcome.response.status,
        match outcome.response.body
        case Json(b) => b
        case NotJson(_) => HttpErrorData(outcome.response.status, outcome.response.statusText)))
    ensures outcome.Responded? && Ok(outcome.response) && outcome.response.status == 204 ==> r == Success(EmptyBody)
    ensures outcome.Responded? && Ok(outcome.response) && outcome.response.status != 204 ==>
      r == match outcome.response.body
           case Json(b) => Success(b)
           case NotJson(_) => Failure(NetworkError)
  {
    match outcome
    case FetchFailed(_) => Failure(NetworkError)
    case Responded(resp) =>
      if !Ok(resp) then
        var data := match resp.body
                    case Json(b) => b
                    case NotJson(_) => HttpErrorData(resp.status, resp.statusText);
        Failure(StatusError(resp.status, data))
      else if resp.status == 204 then Success(EmptyBody)
      else
        match resp.body
        case Json(b) => Success(b)
        case NotJson(_) => Failure(NetworkError)
  }

  /** Every error the TS client throws has a `response` with data. */
  lemma ErrorsCarryData(outcome: Outcome<Body>)
    ensures MakeRequestResult(outcome).Failure? ==>
      MakeRequestResult(outcome).error.response.Some? && MakeRequestResult(outcome).error.response.value.data.Some?
  {
  }

  /** The call succeeds exactly for an OK response that is a 204 or whose body parses. */
  lemma SucceedsIff(outcome: Outcome<Body>)
    ensures MakeRequestResult(outcome).Success? <==>
      outcome.Responded? && Ok(outcome.response) && (outcome.response.status == 204 || outcome.response.body.Json?)
  {
  }

  /** An error whose status is not 0 came from a non-OK response with that status. */
  lemma NonZeroStatusIsServerError(outcome: Outcome<Body>)
    requires MakeRequestResult(outcome).Failure?
    requires MakeRequestResult(outcome).error.response.value.status != 0
    ensures outcome.Responded? && !Ok(outcome.response)
    ensures MakeRequestResult(outcome).error.response.value.status == outcome.response.status
  {
  }

  /** Two unparsable error responses with different statuses produce different messages. */
  lemma HttpErrorMessageNamesStatus(s1: int, s2: int, text: string)
    requires s1 != s2
    ensures HttpErrorData(s1, text).message != HttpErrorData(s2, text).message
  {
    var prefix := "Erro HTTP ";
    var m1 := HttpErrorData(s1, text).message;
    var m2 := HttpErrorData(s2, text).message;
    if m1 == m2 {
      var a := Strings.IntToString(s1);
      var b := Strings.IntToString(s2);
      Strings.NumberBeforeColon(prefix, a, b, text);
      Strings.IntToStringInjective(s1, s2);
    }
  }
}
