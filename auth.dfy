/**
  * The authentication context: the user restored from the stored token at mount, `login`,
  * `logout`, and the role flags derived from the user.
  */
module Auth {
  import opened Wrappers
  import opened Http
  import opened Browser
  import opened ApiClient

  datatype Flags = Flags(isAuthenticated: bool, isAdmin: bool, isCustomer: bool, isDelivery: bool)

  /** The flags the context exposes: `!!user` and one comparison of `user.type` per role. */
  function FlagsOf(user: Option<User>): (f: Flags)
    ensures f.isAuthenticated <==> user.Some?
    ensures f.isAdmin ==> f.isAuthenticated && !f.isCustomer && !f.isDelivery
    ensures f.isCustomer ==> f.isAuthenticated && !f.isDelivery
    ensures user.Some? ==> (f.isAdmin <==> user.value.userType == "admin")
    ensures user.Some? ==> (f.isCustomer <==> user.value.userType == "customer")
    ensures user.Some? ==> (f.isDelivery <==> user.value.userType == "delivery")
    ensures user.None? ==> !f.isAdmin && !f.isCustomer && !f.isDelivery
  {
    Flags(user.Some?,
          user.Some? && user.value.userType == "admin",
          user.Some? && user.value.userType == "customer",
          user.Some? && user.value.userType == "delivery")
  }

  /** An authenticated user whose type is none of the three roles holds no role flag. */
  lemma UnknownTypeHasNoRole(user: User)
    requires user.userType !in {"admin", "customer", "delivery"}
    ensures FlagsOf(Some(user)).isAuthenticated
    ensures !FlagsOf(Some(user)).isAdmin && !FlagsOf(Some(user)).isCustomer && !FlagsOf(Some(user)).isDelivery
  {
  }

  /** What decoding the token's payload gave: its user id and type, or a failure. */
  datatype Claims = Claims(userId: int, userType: string)

  /** The user restored from a token: id and type from the payload, name and email empty. */
  function RestoredUser(c: Claims): (u: User)
    ensures u.id == c.userId && u.userType == c.userType && u.name == "" && u.email == ""
  {
    User(c.userId, "", "", c.userType)
  }

  /** A user restored from a token is signed in and holds exactly the role named by the token's type. */
  lemma RestoredUserFlags(c: Claims)
    ensures FlagsOf(Some(RestoredUser(c))).isAuthenticated
    ensures FlagsOf(Some(RestoredUser(c))).isAdmin <==> c.userType == "admin"
    ensures FlagsOf(Some(RestoredUser(c))).isCustomer <==> c.userType == "customer"
    ensures FlagsOf(Some(RestoredUser(c))).isDelivery <==> c.userType == "delivery"
  {
    var u := RestoredUser(c);
    assert u.userType == c.userType;
  }

  class AuthProvider {
    var user: Option<User>
    var loading: bool
    const api: ApiService

    constructor (api: ApiService)
      ensures this.api == api && user.None? && loading
    {
      this.api := api;
      user := None;
      loading := true;
    }

    /**
      * The mount effect, given what decoding the stored token gives. A token that decodes sets
      * the user; one that does not is cleared; loading ends in every case.
      */
    method Mount(decoded: Option<Claims>)
      modifies this, api, api.storage
      ensures !loading
      ensures Truthy(old(api.GetToken())) && decoded.Some? ==>
        user == Some(RestoredUser(decoded.value)) && api.token == old(api.token) && api.storage.authToken == old(api.storage.authToken)
      ensures Truthy(old(api.GetToken())) && decoded.None? ==>
        user == old(user) && api.token.None? && api.storage.authToken.None? && api.GetToken().None?
      ensures !Truthy(old(api.GetToken())) ==>
        user == old(user) && api.token == old(api.token) && api.storage.authToken == old(api.storage.authToken)
      ensures api.storage.cart == old(api.storage.cart) && api.storage.token == old(api.storage.token)
    {
      var token := api.GetToken();
      if Truthy(token) {
        match decoded {
          case Some(c) =>
            user := Some(RestoredUser(c));
          case None =>
            api.SetToken(None);
        }
      }
      loading := false;
    }

    /**
      * `login`: the response's user becomes the user and the client stores its non-empty token;
      * a thrown error leaves both and is rethrown.
      */
    method Login(outcome: Outcome<Body>) returns (r: Result<Body, Thrown>)
      modifies this, api, api.storage
      ensures r == MakeRequestResult(api.flavor, outcome)
      ensures r.Success? ==> user == r.value.user
      ensures r.Failure? ==> user == old(user)
      ensures r.Success? && r.value.token != "" ==>
        api.token == Some(r.value.token) && api.storage.authToken == Some(r.value.token)
      ensures !(r.Success? && r.value.token != "") ==>
        api.token == old(api.token) && api.storage.authToken == old(api.storage.authToken)
      ensures loading == old(loading)
      ensures api.storage.cart == old(api.storage.cart) && api.storage.token == old(api.storage.token)
    {
      var headers;
      headers, r := api.Login(outcome);
      if r.Success? {
        user := r.value.user;
      }
    }

    /** `logout`: the client forgets its token and the user becomes null. */
    method Logout()
      modifies this, api, api.storage
      ensures user.None? && !FlagsOf(user).isAuthenticated
      ensures api.GetToken().None? && loading == old(loading)
      ensures api.storage.cart == old(api.storage.cart) && api.storage.token == old(api.storage.token)
    {
      api.Logout();
      user := None;
    }
  }
}
