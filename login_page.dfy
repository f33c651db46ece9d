/**
  * The sign-in page: the empty-field check, the call to the context's `login`, the dashboard
  * it sends each role to, and the error it shows when signing in fails.
  */
module LoginPage {
  import opened Wrappers
  import opened Http
  import opened ApiClient
  import opened Auth
  import opened Routing

  const MissingFieldsError: string := "Por favor, preencha todos os campos."
  const DefaultLoginError: string := "Erro ao fazer login. Verifique suas credenciais."

  /**
    * The message of the TypeError thrown when a successful response carries no user and
    * `response.user.type` is read (the wording of Chromium-based browsers).
    */
  const MissingUserError: string := "Cannot read properties of undefined (reading 'type')"

  /** Where a signed-in user is sent: the admin and delivery dashboards, otherwise the customer one. */
  function RedirectFor(userType: string): (path: string)
    ensures path == "/admin" <==> userType == "admin"
    ensures path == "/delivery" <==> userType == "delivery"
    ensures path == "/customer" <==> userType != "admin" && userType != "delivery"
  {
    if userType == "admin" then "/admin"
    else if userType == "delivery" then "/delivery"
    else "/customer"
  }

  /** A user of one of the three roles lands on that role's own dashboard. */
  lemma RedirectLandsOnDashboard(user: User)
    requires DashboardOf(user.userType).Some?
    ensures Resolve(false, Some(user), RouteOf(RedirectFor(user.userType))) == Render(DashboardOf(user.userType).value)
  {
    RouteOfPathOf(AdminRoute);
    RouteOfPathOf(DeliveryRoute);
    RouteOfPathOf(CustomerRoute);
  }

  /**
    * A user of any other type is sent to `/customer`, which the router turns back to
    * `/login`, which in turn redirects to `/`.
    */
  lemma UnknownTypeBouncesBack(user: User)
    requires DashboardOf(user.userType).None?
    ensures Resolve(false, Some(user), RouteOf(RedirectFor(user.userType))) == Redirect(LoginRoute)
    ensures Resolve(false, Some(user), LoginRoute) == Redirect(Root)
  {
    RouteOfPathOf(CustomerRoute);
  }

  /** The error shown when `login` throws: the thrown message, or a default one when it has none. */
  function LoginError(message: string): (e: string)
    ensures e != ""
    ensures message != "" ==> e == message
    ensures message == "" ==> e == DefaultLoginError
  {
    if message != "" then message else DefaultLoginError
  }

  class LoginForm {
    var email: string
    var password: string
    var error: string
    var loading: bool
    const auth: AuthProvider

    constructor (auth: AuthProvider)
      ensures this.auth == auth && email == "" && password == "" && error == "" && !loading
    {
      this.auth := auth;
      email, password, error := "", "", "";
      loading := false;
    }

    /**
      * `handleSubmit`, given what the login request gives. An empty field stops it before any
      * request; after the request, the user's dashboard, or the error, and loading ends.
      */
    method HandleSubmit(outcome: Outcome<Body>) returns (navigateTo: Option<string>)
      modifies this, auth, auth.api, auth.api.storage
      ensures !loading && email == old(email) && password == old(password)
      ensures auth.api.storage.cart == old(auth.api.storage.cart) && auth.api.storage.token == old(auth.api.storage.token)
      ensures auth.loading == old(auth.loading)
      ensures old(email) == "" || old(password) == "" ==>
        error == MissingFieldsError && navigateTo.None? && auth.user == old(auth.user) &&
        auth.api.token == old(auth.api.token) && auth.api.storage.authToken == old(auth.api.storage.authToken)
      ensures old(email) != "" && old(password) != "" ==>
        var r := MakeRequestResult(auth.api.flavor, outcome);
        && (r.Success? && r.value.user.Some? ==>
              error == "" && auth.user == r.value.user && navigateTo == Some(RedirectFor(r.value.user.value.userType)))
        && (r.Success? && r.value.user.None? ==> error == MissingUserError && auth.user.None? && navigateTo.None?)
        && (r.Failure? ==> error == LoginError(r.error.message) && auth.user == old(auth.user) && navigateTo.None?)
        && (r.Success? && r.value.token != "" ==>
              auth.api.token == Some(r.value.token) && auth.api.storage.authToken == Some(r.value.token))
        && (!(r.Success? && r.value.token != "") ==>
              auth.api.token == old(auth.api.token) && auth.api.storage.authToken == old(auth.api.storage.authToken))
    {
      error := "";
      loading := true;
      navigateTo := None;
      if email == "" || password == "" {
        error := MissingFieldsError;
        loading := false;
        return;
      }
      var r := auth.Login(outcome);
      match r {
        case Success(body) =>
          match body.user {
            case Some(u) =>
              navigateTo := Some(RedirectFor(u.userType));
            case None =>
              error := MissingUserError;
          }
        case Failure(thrown) =>
          error := LoginError(thrown.message);
      }
      loading := false;
    }
  }
}
