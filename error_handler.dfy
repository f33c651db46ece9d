/**
  * The error-handling hook (`useErrorHandler`): it normalises any thrown value into an API
  * error record and keeps a loading flag; the message helpers read that record back.
  */
module ErrorHandler {
  import opened Wrappers
  import opened Http
  import ApiTs
  import ApiJs

  const UnexpectedMessage: string := "Ocorreu um erro inesperado"
  const UnknownMessage: string := "Erro desconhecido"

  /** The record `handleError` stores for a thrown value, in the order it tests. */
  function Normalise(err: Thrown): (e: Body)
    ensures err.response.Some? && err.response.value.data.Some? ==> e == err.response.value.data.value
    ensures !(err.response.Some? && err.response.value.data.Some?) && err.message != "" ==>
      e.error == "network_error" && e.message == err.message && e.validations.None?
    ensures !(err.response.Some? && err.response.value.data.Some?) && err.message == "" ==>
      e.error == "unknown_error" && e.message == UnexpectedMessage && e.validations.None?
  {
    if err.response.Some? && err.response.value.data.Some? then err.response.value.data.value
    else if err.message != "" then Body("network_error", err.message, None, "", None)
    else Body("unknown_error", UnexpectedMessage, None, "", None)
  }

  /** Whatever the TS client throws is stored as exactly the data it carries. */
  lemma TsErrorsStoredVerbatim(outcome: Outcome<Body>)
    requires ApiTs.MakeRequestResult(outcome).Failure?
    ensures Normalise(ApiTs.MakeRequestResult(outcome).error) ==
      ApiTs.MakeRequestResult(outcome).error.response.value.data.value
  {
    ApiTs.ErrorsCarryData(outcome);
  }

  /** Whatever the JS client throws for a non-OK response becomes a network_error. */
  lemma JsStatusErrorsBecomeNetworkErrors(outcome: Outcome<Body>)
    requires outcome.Responded? && !Ok(outcome.response)
    ensures Normalise(ApiJs.MakeRequestResult(outcome).error).error == "network_error"
    ensures Normalise(ApiJs.MakeRequestResult(outcome).error).message == ApiJs.StatusErrorMessage(outcome.response)
  {
  }

  /** `getErrorMessage`. */
  function ErrorMessage(error: Option<Body>): (m: string)
    ensures error.None? ==> m == ""
    ensures error.Some? && error.value.validations.Some? && |error.value.validations.value| > 0 ==>
      m == error.value.validations.value[0].message
    ensures error.Some? && !(error.value.validations.Some? && |error.value.validations.value| > 0) ==>
      m == if error.value.message != "" then error.value.message else UnknownMessage
  {
    match error
    case None => ""
    case Some(e) =>
      if e.validations.Some? && |e.validations.value| > 0 then e.validations.value[0].message
      else if e.message != "" then e.message
      else UnknownMessage
  }

  /** An error record without validations always yields a non-empty message. */
  lemma ErrorMessageNonEmpty(e: Body)
    requires e.validations.None?
    ensures ErrorMessage(Some(e)) != ""
  {
  }

  /** A normalised error's message is what the user sees, when it has no validations. */
  lemma NormalisedMessageShown(err: Thrown)
    requires !(err.response.Some? && err.response.value.data.Some?)
    ensures ErrorMessage(Some(Normalise(err))) == if err.message != "" then err.message else UnexpectedMessage
  {
  }

  /** The field->message dictionary of a list of validations; a later field overwrites. */
  function ValidationMap(vs: seq<Validation>): (m: map<string, string>)
    ensures m.Keys == set v | v in vs :: v.field
    decreases |vs|
  {
    if vs == [] then map[]
    else
      var init := ValidationMap(vs[..|vs| - 1]);
      assert forall v :: v in vs <==> v in vs[..|vs| - 1] || v == vs[|vs| - 1];
      init[vs[|vs| - 1].field := vs[|vs| - 1].message]
  }

  /** Last wins: a field maps to the message of its last validation in the list. */
  lemma {:induction false} ValidationMapLastWins(vs: seq<Validation>, j: nat)
    requires j < |vs|
    requires forall k :: j < k < |vs| ==> vs[k].field != vs[j].field
    ensures ValidationMap(vs)[vs[j].field] == vs[j].message
    decreases |vs|
  {
    if j < |vs| - 1 {
      var init := vs[..|vs| - 1];
      assert init[j] == vs[j];
      assert forall k :: j < k < |init| ==> init[k].field != init[j].field by {
        forall k | j < k < |init| ensures init[k].field != init[j].field {
          assert init[k] == vs[k];
        }
      }
      ValidationMapLastWins(init, j);
    }
  }

  /** `getValidationErrors`: `{}` without validations, otherwise the `forEach` filling a dictionary. */
  method ValidationErrors(error: Option<Body>) returns (errors: map<string, string>)
    ensures error.None? || error.value.validations.None? ==> errors == map[]
    ensures error.Some? && error.value.validations.Some? ==> errors == ValidationMap(error.value.validations.value)
  {
    errors := map[];
    if error.None? || error.value.validations.None? {
      return;
    }
    var vs := error.value.validations.value;
    var i := 0;
    while i < |vs|
      invariant 0 <= i <= |vs|
      invariant errors == ValidationMap(vs[..i])
    {
      assert vs[..i + 1][..i] == vs[..i];
      errors := errors[vs[i].field := vs[i].message];
      i := i + 1;
    }
    assert vs[..|vs|] == vs;
  }

  /** The hook's state: the stored error record and the loading flag. */
  class ErrorState {
    var error: Option<Body>
    var isLoading: bool

    constructor ()
      ensures error == None && !isLoading
    {
      error := None;
      isLoading := false;
    }

    method ClearError()
      modifies this
      ensures error == None && isLoading == old(isLoading)
    {
      error := None;
    }

    /** Starting to load also clears the error; stopping leaves it. */
    method SetLoading(loading: bool)
      modifies this
      ensures isLoading == loading
      ensures error == if loading then None else old(error)
    {
      isLoading := loading;
      if loading {
        ClearError();
      }
    }

    method HandleError(err: Thrown)
      modifies this
      ensures !isLoading && error == Some(Normalise(err))
    {
      isLoading := false;
      error := Some(Normalise(err));
    }
  }
}
