/**
  * The token handling and header assembly the two API clients share, and one client object
  * (`ApiService`) over the browser storage. Which client a page gets depends on module
  * resolution, so the object records which error mapping it uses.
  */
module ApiClient {
  import opened Wrappers
  import opened Http
  import opened Browser
  import ApiTs
  import ApiJs

  datatype Flavor = TypeScript | JavaScript

  function MakeRequestResult(flavor: Flavor, outcome: Outcome<Body>): Result<Body, Thrown> {
    match flavor
    case TypeScript => ApiTs.MakeRequestResult(outcome)
    case JavaScript => ApiJs.MakeRequestResult(outcome)
  }

  /** `this.token || localStorage.getItem('authToken')`. */
  function ResolveToken(field: Option<string>, stored: Option<string>): (r: Option<string>)
    ensures Truthy(field) ==> r == field
    ensures !Truthy(field) ==> r == stored
  {
    if Truthy(field) then field else stored
  }

  /** The 'authToken' record after `setToken(t)`: stored when truthy, removed otherwise. */
  function StoredToken(t: Option<string>): (r: Option<string>)
    ensures r.Some? <==> Truthy(t)
    ensures r.Some? ==> r == t
  {
    if Truthy(t) then t else None
  }

  /** After `setToken(t)`, `getToken()` gives t when it is truthy and null otherwise. */
  lemma SetThenGet(t: Option<string>)
    ensures ResolveToken(t, StoredToken(t)) == StoredToken(t)
    ensures Truthy(ResolveToken(t, StoredToken(t))) <==> Truthy(t)
  {
  }

  const ContentType: string := "Content-Type"
  const Authorization: string := "Authorization"

  /** The headers of a request: JSON by default, the caller's on top, the bearer token last. */
  function RequestHeaders(caller: map<string, string>, token: Option<string>): (h: map<string, string>)
    ensures ContentType in h && h[ContentType] == if ContentType in caller then caller[ContentType] else "application/json"
    ensures Truthy(token) ==> Authorization in h && h[Authorization] == "Bearer " + token.value
    ensures !Truthy(token) ==> (Authorization in h <==> Authorization in caller)
    ensures !Truthy(token) && Authorization in caller ==> h[Authorization] == caller[Authorization]
    ensures forall k :: k in caller && k != ContentType && k != Authorization ==> k in h && h[k] == caller[k]
    ensures forall k :: k in h ==> k in caller || k == ContentType || k == Authorization
  {
    var base := map[ContentType := "application/json"] + caller;
    if Truthy(token) then base[Authorization := "Bearer " + token.value] else base
  }

  /** One client object: its `token` field over the shared storage. */
  class ApiService {
    const flavor: Flavor
    const storage: Storage
    var token: Option<string>

    /** The constructor reads the 'authToken' record once. */
    constructor (flavor: Flavor, storage: Storage)
      ensures this.flavor == flavor && this.storage == storage && token == storage.authToken
    {
      this.flavor := flavor;
      this.storage := storage;
      token := storage.authToken;
    }

    function GetToken(): (r: Option<string>)
      reads this, storage
      ensures r == ResolveToken(token, storage.authToken)
    {
      if Truthy(token) then token else storage.authToken
    }

    method SetToken(t: Option<string>)
      modifies this, storage
      ensures token == t && storage.authToken == StoredToken(t)
      ensures GetToken() == StoredToken(t)
      ensures storage.cart == old(storage.cart) && storage.token == old(storage.token)
    {
      token := t;
      storage.authToken := if Truthy(t) then t else None;
    }

    /** `logout` is `setToken(null)`: neither the field nor the record keeps a token. */
    method Logout()
      modifies this, storage
      ensures token == None && storage.authToken == None && GetToken() == None
      ensures storage.cart == old(storage.cart) && storage.token == old(storage.token)
    {
      SetToken(None);
    }

    /** `makeRequest`: the headers it sends and what it resolves or throws; nothing changes. */
    method MakeRequest(caller: map<string, string>, outcome: Outcome<Body>)
      returns (headers: map<string, string>, r: Result<Body, Thrown>)
      ensures headers == RequestHeaders(caller, GetToken())
      ensures r == MakeRequestResult(flavor, outcome)
    {
      headers := RequestHeaders(caller, GetToken());
      r := MakeRequestResult(flavor, outcome);
    }

    /** `login`: a token in a successful response is stored; otherwise the token is kept. */
    method Login(outcome: Outcome<Body>) returns (headers: map<string, string>, r: Result<Body, Thrown>)
      modifies this, storage
      ensures headers == RequestHeaders(map[], old(GetToken()))
      ensures r == MakeRequestResult(flavor, outcome)
      ensures r.Success? && r.value.token != "" ==>
        token == Some(r.value.token) && storage.authToken == Some(r.value.token)
      ensures !(r.Success? && r.value.token != "") ==>
        token == old(token) && storage.authToken == old(storage.authToken)
      ensures storage.cart == old(storage.cart) && storage.token == old(storage.token)
    {
      headers, r := MakeRequest(map[], outcome);
      if r.Success? && r.value.token != "" {
        SetToken(Some(r.value.token));
      }
    }
  }

  /** A 204 with an empty body: the TS client resolves `{}`, the JS client throws. */
  lemma NoContentDiffers(statusText: string, reason: string)
    ensures MakeRequestResult(TypeScript, Responded(Response(204, statusText, NotJson(reason)))) == Success(EmptyBody)
    ensures MakeRequestResult(JavaScript, Responded(Response(204, statusText, NotJson(reason)))).Failure?
  {
  }

  /** Where the TS client succeeds on a body it parsed, the JS client yields the same body. */
  lemma ClientsAgreeOnParsedSuccess(outcome: Outcome<Body>)
    requires outcome.Responded? && outcome.response.status != 204
    ensures MakeRequestResult(TypeScript, outcome).Success? ==>
      MakeRequestResult(JavaScript, outcome) == MakeRequestResult(TypeScript, outcome)
  {
  }

  /** Both clients fail on every non-OK response and on every network failure. */
  lemma ClientsAgreeOnFailure(outcome: Outcome<Body>)
    requires outcome.FetchFailed? || !Ok(outcome.response)
    ensures MakeRequestResult(TypeScript, outcome).Failure? && MakeRequestResult(JavaScript, outcome).Failure?
  {
  }
}
