/** src/context/AuthContext.jsx: the session held by the auth provider.
    `localStorage` is modelled as the two fields `storedToken` and
    `storedUser` (absent key = None); `JSON.parse` and `JSON.stringify` are
    the parameters `parse` and `encode`; navigations and backend calls are
    ghost logs; toasts and console output are left out. */
module AuthContext {
  import opened Common
  import opened Entities

  /** What `JSON.parse` makes of the stored user text: a parse error, a falsy
      JSON value (`null` included), or a truthy value taken as the user. */
  datatype Parsed = Unparseable | Falsy | Parsed(user: User)

  /** The body of a successful `POST /api/auth/login`. */
  datatype LoginResponse = LoginResponse(token: string, id: int, name: string, roles: Option<seq<string>>)

  /** Whether an async handler resolved or rethrew its error to the caller. */
  datatype Outcome = Resolved | Rethrown

  /** `roles && roles.includes('ROLE_ADMIN')` */
  predicate IsAdmin(roles: Option<seq<string>>)
  {
    roles.Some? && "ROLE_ADMIN" in roles.value
  }

  /** Where a successful login sends the user. */
  function LoginTarget(roles: Option<seq<string>>): (r: Route)
    ensures r == AdminList <==> IsAdmin(roles)
    ensures r == Home <==> !IsAdmin(roles)
  {
    if IsAdmin(roles) then AdminList else Home
  }

  class Auth {
    var isLoggedIn: bool
    var user: Option<User>
    var loading: bool
    var cart: seq<CartLine>
    var storedToken: Option<string>   // localStorage 'token'
    var storedUser: Option<string>    // localStorage 'user'
    ghost var navigations: seq<Route>
    ghost var requests: seq<Request>

    /** Mounting the provider over whatever storage a previous visit left. */
    constructor (token: Option<string>, userText: Option<string>)
      ensures !isLoggedIn && user == None && loading && cart == []
      ensures storedToken == token && storedUser == userText
      ensures navigations == [] && requests == []
    {
      isLoggedIn, user, loading, cart := false, None, true, [];
      storedToken, storedUser := token, userText;
      navigations, requests := [], [];
    }

    /** Children of the provider render only once the initial check is done. */
    predicate RendersChildren()
      reads this
    {
      !loading
    }

    /** The mount effect: restore the session from storage. The stored user
        is parsed only when a truthy token is present; an absent key reads
        as `null`; a parse error clears both keys instead of throwing. */
    method Restore(parse: string -> Parsed)
      modifies this
      ensures !loading && RendersChildren()
      ensures cart == old(cart) && navigations == old(navigations) && requests == old(requests)
      ensures !TruthyString(old(storedToken)) ==>
        isLoggedIn == old(isLoggedIn) && user == old(user) &&
        storedToken == old(storedToken) && storedUser == old(storedUser)
      ensures TruthyString(old(storedToken)) ==>
        var parsed := if old(storedUser).None? then Falsy else parse(old(storedUser).value);
        match parsed
        case Parsed(u) =>
          isLoggedIn && user == Some(u) &&
          storedToken == old(storedToken) && storedUser == old(storedUser)
        case Falsy =>
          isLoggedIn == old(isLoggedIn) && user == old(user) &&
          storedToken == old(storedToken) && storedUser == old(storedUser)
        case Unparseable =>
          isLoggedIn == old(isLoggedIn) && user == old(user) &&
          storedToken == None && storedUser == None
    {
      if TruthyString(storedToken) {
        var parsed := if storedUser.None? then Falsy else parse(storedUser.value);
        match parsed {
          case Parsed(u) =>
            user := Some(u);
            isLoggedIn := true;
          case Falsy =>
          case Unparseable =>
            storedToken := None;
            storedUser := None;
        }
      }
      loading := false;
    }

    /** `login`: on success persist the token and the profile together, sign
        in, and navigate by role; on failure change nothing and rethrow. */
    method Login(email: string, response: Option<LoginResponse>, encode: User -> string) returns (outcome: Outcome)
      modifies this
      ensures requests == old(requests) + [LoginCall(email)]
      ensures cart == old(cart) && loading == old(loading)
      ensures outcome == Resolved <==> response.Some?
      ensures response.None? ==>
        isLoggedIn == old(isLoggedIn) && user == old(user) &&
        storedToken == old(storedToken) && storedUser == old(storedUser) &&
        navigations == old(navigations)
      ensures response.Some? ==>
        var r := response.value;
        var u := User(r.id, email, r.name, r.roles);
        isLoggedIn && user == Some(u) &&
        storedToken == Some(r.token) && storedUser == Some(encode(u)) &&
        navigations == old(navigations) + [LoginTarget(r.roles)]
    {
      requests := requests + [LoginCall(email)];
      if response.None? {
        return Rethrown;
      }
      var r := response.value;
      var userData := User(r.id, email, r.name, r.roles);
      storedToken := Some(r.token);
      storedUser := Some(encode(userData));
      isLoggedIn := true;
      user := Some(userData);
      if IsAdmin(r.roles) {
        navigations := navigations + [AdminList];
      } else {
        navigations := navigations + [Home];
      }
      outcome := Resolved;
    }

    /** `logout`: remove both keys, sign out, empty the cart, go to the login page. */
    method Logout()
      modifies this
      ensures storedToken == None && storedUser == None
      ensures !isLoggedIn && user == None && cart == []
      ensures loading == old(loading) && requests == old(requests)
      ensures navigations == old(navigations) + [LoginRoute]
    {
      storedToken := None;
      storedUser := None;
      isLoggedIn := false;
      user := None;
      cart := [];
      navigations := navigations + [LoginRoute];
    }

    /** `signup`: never signs in; on success go to the login page, on failure rethrow. */
    method Signup(email: string, success: bool) returns (outcome: Outcome)
      modifies this
      ensures isLoggedIn == old(isLoggedIn) && user == old(user) && cart == old(cart) && loading == old(loading)
      ensures storedToken == old(storedToken) && storedUser == old(storedUser)
      ensures requests == old(requests) + [SignupCall(email)]
      ensures outcome == Resolved <==> success
      ensures navigations == old(navigations) + (if success then [LoginRoute] else [])
    {
      requests := requests + [SignupCall(email)];
      if success {
        navigations := navigations + [LoginRoute];
        outcome := Resolved;
      } else {
        outcome := Rethrown;
      }
    }
  }

  /** A user who logged in is signed in again by the next visit's restore,
      provided `parse` reads back what `encode` wrote, and is signed out on
      the visit after a logout. */
  method LoginThenRestore(email: string, r: LoginResponse, encode: User -> string, parse: string -> Parsed)
    returns (restored: Option<User>, signedInAfterLogout: bool)
    requires r.token != ""
    requires forall u :: parse(encode(u)) == Parsed(u)
    ensures restored == Some(User(r.id, email, r.name, r.roles))
    ensures !signedInAfterLogout
  {
    var first := new Auth(None, None);
    var outcome := first.Login(email, Some(r), encode);
    var next := new Auth(first.storedToken, first.storedUser);
    next.Restore(parse);
    restored := next.user;
    next.Logout();
    var after := new Auth(next.storedToken, next.storedUser);
    after.Restore(parse);
    signedInAfterLogout := after.isLoggedIn;
  }
}
