/**
  * The application's routes: what each path shows for the signed-in user, which paths
  * redirect where, and when the navigation bar is shown.
  */
module Routing {
  import opened Wrappers
  import opened Http
  import Auth

  datatype Route =
    | Root
    | CustomerRoute
    | DeliveryRoute
    | AdminRoute
    | CheckoutRoute
    | LoginRoute
    | SignupCustomer
    | SignupDelivery
    | Unmatched

  /** The path each route is declared with (the role routes also match everything below it). */
  function PathOf(r: Route): string {
    match r
    case Root => "/"
    case CustomerRoute => "/customer"
    case DeliveryRoute => "/delivery"
    case AdminRoute => "/admin"
    case CheckoutRoute => "/checkout"
    case LoginRoute => "/login"
    case SignupCustomer => "/signup/customer"
    case SignupDelivery => "/signup/delivery"
    case Unmatched => ""
  }

  /** A splat route: the base itself or any path below it. */
  predicate Under(path: string, base: string) {
    path == base || (|path| > |base| && path[..|base| + 1] == base + "/")
  }

  /** A path under a base starts with every character of the base. */
  lemma UnderStartsWith(path: string, base: string)
    ensures Under(path, base) ==> |path| >= |base| && forall i :: 0 <= i < |base| ==> path[i] == base[i]
    ensures Under(path, base) && |base| >= 3 ==> path[1] == base[1] && path[2] == base[2]
  {
    if Under(path, base) && path != base {
      forall i | 0 <= i < |base| ensures path[i] == base[i] {
        assert path[..|base| + 1][i] == (base + "/")[i];
      }
    }
  }

  /** The route a path selects; a path no route declares selects none. */
  function RouteOf(path: string): (r: Route)
    ensures r != Unmatched ==> Under(path, PathOf(r))
    ensures r == Root <==> path == "/"
    ensures r == CheckoutRoute <==> path == "/checkout"
    ensures r == LoginRoute <==> path == "/login"
    ensures r == CustomerRoute <==> Under(path, "/customer")
    ensures r == AdminRoute <==> Under(path, "/admin")
    ensures r == DeliveryRoute <==> Under(path, "/delivery")
  {
    UnderStartsWith(path, "/customer");
    UnderStartsWith(path, "/delivery");
    UnderStartsWith(path, "/admin");
    if path == "/" then Root
    else if Under(path, "/customer") then CustomerRoute
    else if Under(path, "/delivery") then DeliveryRoute
    else if Under(path, "/admin") then AdminRoute
    else if path == "/checkout" then CheckoutRoute
    else if path == "/login" then LoginRoute
    else if path == "/signup/customer" then SignupCustomer
    else if path == "/signup/delivery" then SignupDelivery
    else Unmatched
  }

  /** Every declared route is selected by its own path. */
  lemma RouteOfPathOf(r: Route)
    requires r != Unmatched
    ensures RouteOf(PathOf(r)) == r
  {
    var path := PathOf(r);
    UnderStartsWith(path, "/customer");
    UnderStartsWith(path, "/delivery");
    UnderStartsWith(path, "/admin");
  }

  datatype Page =
    | CustomerDashboardPage
    | DeliveryDashboardPage
    | AdminDashboardPage
    | CheckoutPage
    | LoginPage
    | CustomerSignupPage
    | DeliverySignupPage

  datatype View = LoadingScreen | Render(page: Page) | Redirect(to: Route) | NoMatch

  /** The dashboard `/` shows: the one of the user's type, or back to `/login`. */
  function Dashboard(user: Option<User>): View {
    if user.None? then Redirect(LoginRoute)
    else match user.value.userType
      case "customer" => Render(CustomerDashboardPage)
      case "delivery" => Render(DeliveryDashboardPage)
      case "admin" => Render(AdminDashboardPage)
      case _ => Redirect(LoginRoute)
  }

  /** What the application shows on a route, while the session is loading or after. */
  function Resolve(loading: bool, user: Option<User>, route: Route): (v: View)
    ensures loading <==> v == LoadingScreen
    ensures !loading && route == Unmatched <==> v == NoMatch
    ensures v.Redirect? ==> v.to in {Root, LoginRoute}
  {
    var f := Auth.FlagsOf(user);
    if loading then LoadingScreen
    else match route
      case Root => if f.isAuthenticated then Dashboard(user) else Redirect(LoginRoute)
      case CustomerRoute => if f.isCustomer then Render(CustomerDashboardPage) else Redirect(LoginRoute)
      case DeliveryRoute => if f.isDelivery then Render(DeliveryDashboardPage) else Redirect(LoginRoute)
      case AdminRoute => if f.isAdmin then Render(AdminDashboardPage) else Redirect(LoginRoute)
      case CheckoutRoute => if f.isCustomer then Render(CheckoutPage) else Redirect(LoginRoute)
      case LoginRoute => if !f.isAuthenticated then Render(LoginPage) else Redirect(Root)
      case SignupCustomer => if !f.isAuthenticated then Render(CustomerSignupPage) else Redirect(Root)
      case SignupDelivery => if !f.isAuthenticated then Render(DeliverySignupPage) else Redirect(Root)
      case Unmatched => NoMatch
  }

  /** The routes open to visitors who are not signed in. */
  predicate IsPublic(r: Route) {
    r == LoginRoute || r == SignupCustomer || r == SignupDelivery
  }

  /** Signed out, the public routes render and every other declared route sends to `/login`. */
  lemma SignedOutRouting(route: Route)
    requires route != Unmatched
    ensures IsPublic(route) ==> Resolve(false, None, route).Render?
    ensures !IsPublic(route) ==> Resolve(false, None, route) == Redirect(LoginRoute)
  {
  }

  /** Signed in, the public routes send back to `/`. */
  lemma SignedInLeavesPublicRoutes(user: User, route: Route)
    requires IsPublic(route)
    ensures Resolve(false, Some(user), route) == Redirect(Root)
  {
  }

  /** The page a role's dashboard is. */
  function DashboardOf(userType: string): Option<Page> {
    match userType
    case "customer" => Some(CustomerDashboardPage)
    case "delivery" => Some(DeliveryDashboardPage)
    case "admin" => Some(AdminDashboardPage)
    case _ => None
  }

  /**
    * A page that needs a role renders exactly for users of that role, and `/` renders the
    * user's own dashboard whenever the user has one of the three roles.
    */
  lemma RolePagesMatchRole(user: Option<User>, route: Route)
    ensures Resolve(false, user, route) == Render(CustomerDashboardPage) ==> Auth.FlagsOf(user).isCustomer
    ensures Resolve(false, user, route) == Render(DeliveryDashboardPage) ==> Auth.FlagsOf(user).isDelivery
    ensures Resolve(false, user, route) == Render(AdminDashboardPage) ==> Auth.FlagsOf(user).isAdmin
    ensures Resolve(false, user, route) == Render(CheckoutPage) <==> route == CheckoutRoute && Auth.FlagsOf(user).isCustomer
    ensures user.Some? && DashboardOf(user.value.userType).Some? ==>
      Resolve(false, user, Root) == Render(DashboardOf(user.value.userType).value)
  {
  }

  /** The navigation bar is shown once loading is over, exactly for a signed-in user. */
  predicate NavbarShown(loading: bool, user: Option<User>) {
    !loading && Auth.FlagsOf(user).isAuthenticated
  }

  /** The navigation bar is shown exactly when the user can reach a page that needs a sign-in. */
  lemma NavbarMeansSignedIn(user: Option<User>)
    ensures NavbarShown(false, user) <==> user.Some?
    ensures NavbarShown(false, user) <==> Resolve(false, user, LoginRoute) == Redirect(Root)
  {
  }

  /** What the application ends on after following up to `hops` redirects from a route. */
  function Follow(user: Option<User>, route: Route, hops: nat): View
    decreases hops
  {
    var v := Resolve(false, user, route);
    if hops == 0 || !v.Redirect? then v else Follow(user, v.to, hops - 1)
  }

  /** Signed out, or signed in with one of the three roles, two redirects at most reach a page. */
  lemma RedirectsSettle(user: Option<User>, route: Route)
    requires route != Unmatched
    requires user.Some? ==> DashboardOf(user.value.userType).Some?
    ensures Follow(user, route, 2).Render?
  {
  }

  /**
    * Signed in with a type that is none of the three roles, `/` and `/login` redirect to each
    * other for ever: no number of redirects reaches a page.
    */
  lemma {:induction false} UnknownRoleLoops(user: User, route: Route, hops: nat)
    requires DashboardOf(user.userType).None?
    requires route == Root || route == LoginRoute
    ensures Follow(Some(user), route, hops).Redirect?
    decreases hops
  {
    if hops > 0 {
      var v := Resolve(false, Some(user), route);
      UnknownRoleLoops(user, v.to, hops - 1);
    }
  }
}
