/** The entry page of app/index.tsx. Its navigation decision is a pure case
    analysis of `(user, isLoading, mounted, error)`; the page object holds
    the `mounted` and `error` state its effects and error boundary set. */
module Router {
  import opened Wrappers
  import opened Types
  import Auth
  import Session

  datatype Route = LoginRoute | TouristRoot | AdminRoot

  function Path(r: Route): (p: string)
    ensures |p| > 1 && p[0] == '/'
  {
    match r
    case LoginRoute => "/login"
    case TouristRoot => "/(tourist)"
    case AdminRoot => "/(admin)"
  }

  lemma PathInjective(a: Route, b: Route)
    ensures Path(a) == Path(b) <==> a == b
  {
    if a != b {
      assert Path(a)[1] != Path(b)[1] || |Path(a)| != |Path(b)|;
    }
  }

  /** The branch on `user.role`, which compares the role's run-time string:
      "tourist" and "admin" go to their roots, and any other value falls back
      to the login screen. */
  function RouteForRoleName(role: string): (r: Route)
    ensures r == TouristRoot <==> role == "tourist"
    ensures r == AdminRoot <==> role == "admin"
    ensures r == LoginRoute <==> role != "tourist" && role != "admin"
  {
    if role == "tourist" then TouristRoot
    else if role == "admin" then AdminRoot
    else LoginRoute
  }

  /** JavaScript truthiness of the page's `error` (a string or null): null
      and the empty string are both falsy. */
  predicate ErrorShown(error: Option<string>) {
    error.Some? && error.value != ""
  }

  /** The second effect: where to go, if anywhere. Nothing happens before
      the page is mounted, while the session is loading, or once `error` is
      set; otherwise exactly one target is chosen. */
  function IndexNavigation(user: Option<User>, isLoading: bool, mounted: bool, error: Option<string>): (r: Option<Route>)
    ensures r.None? <==> !mounted || isLoading || ErrorShown(error)
    ensures r.Some? && user.None? ==> r.value == LoginRoute
    ensures r.Some? && user.Some? && user.value.role == Tourist ==> r.value == TouristRoot
    ensures r.Some? && user.Some? && user.value.role == Admin ==> r.value == AdminRoot
    ensures r.Some? ==> (r.value == LoginRoute <==> user.None?)
  {
    if !mounted || isLoading || ErrorShown(error) then None
    else if user.None? then Some(LoginRoute)
    else Some(RouteForRoleName(RoleName(user.value.role)))
  }

  /** The "other role" fallback is out of reach for a typed user. */
  lemma TypedRoleNeverFallsBack(r: Role)
    ensures RouteForRoleName(RoleName(r)) != LoginRoute
  {
  }

  /** Whoever the gateway lets in lands on the root of the role the
      directory gives them. */
  lemma DirectoryAccountsReachTheirRoot(email: string, password: string)
    requires Auth.Authenticate(email, password).Success?
    ensures IndexNavigation(Some(Auth.Authenticate(email, password).value), false, true, None)
            == Some(if email == Auth.TouristEmail then TouristRoot else AdminRoot)
  {
  }

  /** A fresh sign-up always lands on the tourist root. */
  lemma SignupReachesTouristRoot(now: nat, name: string, email: string)
    ensures IndexNavigation(Some(Auth.SignupUser(now, name, email)), false, true, None) == Some(TouristRoot)
  {
  }

  const AuthUnavailable: string := "Authentication system not available"

  /** What the page shows while it has not navigated away. */
  datatype IndexScreen = ErrorScreen(message: string, hint: string) | Waiting(status: string)

  function ScreenFor(isLoading: bool, error: Option<string>): (s: IndexScreen)
    ensures s.ErrorScreen? <==> ErrorShown(error)
    ensures s.Waiting? ==> (s.status == "Loading..." <==> isLoading)
    ensures s.Waiting? ==> (s.status == "Initializing..." <==> !isLoading)
  {
    if ErrorShown(error) then ErrorScreen("Error: " + error.value, "Please restart the app")
    else Waiting(if isLoading then "Loading..." else "Initializing...")
  }

  class IndexPage {
    var mounted: bool
    var error: Option<string>

    constructor ()
      ensures !mounted && error == None
    {
      mounted := false;
      error := None;
    }

    /** The first effect. */
    method Mount()
      modifies this
      ensures mounted && error == old(error)
    {
      mounted := true;
    }

    /** The guarded `useAuth()` call: `ctx == null` stands for a hook that
        throws because no provider is above the page; the page then goes on
        with no user, not loading, and with `error` set. */
    method ReadAuth(ctx: Session.AuthProvider?) returns (user: Option<User>, isLoading: bool)
      modifies this
      ensures mounted == old(mounted)
      ensures ctx == null ==> user == None && !isLoading && error == Some(AuthUnavailable)
      ensures ctx != null ==> user == ctx.user && isLoading == ctx.isLoading && error == old(error)
    {
      if ctx == null {
        error := Some(AuthUnavailable);
        user, isLoading := None, false;
      } else {
        user, isLoading := ctx.user, ctx.isLoading;
      }
    }

    /** The second effect, run on the page's current state. */
    method NavigationEffect(user: Option<User>, isLoading: bool) returns (target: Option<Route>)
      ensures target == IndexNavigation(user, isLoading, mounted, error)
    {
      if !mounted || isLoading || ErrorShown(error) {
        return None;
      }
      if user.None? {
        target := Some(LoginRoute);
      } else if user.value.role == Tourist {
        target := Some(TouristRoot);
      } else if user.value.role == Admin {
        target := Some(AdminRoot);
      } else {
        target := Some(LoginRoute);
      }
    }

    /** One render of the page and the effects of that commit. The navigation
        effect sees the `mounted` value of this render, and the mount
        effect's update takes effect from the next render on. When the hook
        throws, this is the behaviour the page evidently aims at: the error
        screen and no navigation. The source does not reach it, because its
        error update is issued during every render unconditionally, and React
        keeps re-rendering until it gives up with an error; that loop is not
        modelled. */
    method Render(ctx: Session.AuthProvider?) returns (target: Option<Route>, screen: IndexScreen)
      modifies this
      ensures mounted
      ensures error == if ctx == null then Some(AuthUnavailable) else old(error)
      ensures ctx == null ==> target.None? && screen == ErrorScreen("Error: " + AuthUnavailable, "Please restart the app")
      ensures ctx != null ==> target == IndexNavigation(ctx.user, ctx.isLoading, old(mounted), old(error))
                              && screen == ScreenFor(ctx.isLoading, old(error))
    {
      var user, isLoading := ReadAuth(ctx);
      screen := ScreenFor(isLoading, error);
      target := NavigationEffect(user, isLoading);
      Mount();
    }
  }

  /** A fresh page does not navigate on its first render; on the second it
      goes exactly where the routing policy says for the store's state. */
  method FirstTwoRenders(ctx: Session.AuthProvider) returns (first: Option<Route>, second: Option<Route>)
    ensures first.None?
    ensures second == IndexNavigation(ctx.user, ctx.isLoading, true, None)
  {
    var page := new IndexPage();
    var screen;
    first, screen := page.Render(ctx);
    second, screen := page.Render(ctx);
  }
}
