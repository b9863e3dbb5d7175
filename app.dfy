/**
 * The route table of `App` and its `ProtectedRoute` guard, as a decision over
 * the session state `(loading, user)`.
 */
module App {
  import opened Wrappers

  /** What `ProtectedRoute` renders. */
  datatype GuardView = LoadingPlaceholder | Redirect(to: string, replace: bool) | Children

  /** `ProtectedRoute`: wait while loading, send a signed-out visitor to `/login`, otherwise render. */
  function ProtectedRoute<U>(loading: bool, user: Option<U>): (v: GuardView)
    ensures v == LoadingPlaceholder <==> loading
    ensures v == Redirect("/login", true) <==> !loading && user.None?
    ensures v == Children <==> !loading && user.Some?
  {
    if loading then LoadingPlaceholder
    else if user.None? then Redirect("/login", true)
    else Children
  }

  datatype Page = LoginPage | DashboardPage

  /** A route's element: a page, possibly wrapped in the guard, or a `Navigate`. */
  datatype Element = Plain(page: Page) | Guarded(page: Page) | Navigate(to: string, replace: bool)

  datatype Route = Route(path: string, element: Element)

  const Routes: seq<Route> := [
    Route("/login", Plain(LoginPage)),
    Route("/dashboard", Guarded(DashboardPage)),
    Route("/", Navigate("/dashboard", true))
  ]

  /** What a location shows: a page, the loading placeholder, or a redirect. */
  datatype Screen = Show(page: Page) | Loading | GoTo(to: string, replace: bool)

  function Render<U>(e: Element, loading: bool, user: Option<U>): Screen {
    match e
    case Plain(p) => Show(p)
    case Navigate(to, replace) => GoTo(to, replace)
    case Guarded(p) =>
      match ProtectedRoute(loading, user)
      case LoadingPlaceholder => Loading
      case Redirect(to, replace) => GoTo(to, replace)
      case Children => Show(p)
  }

  /** The element of the first route whose path is `path`. */
  function Match(routes: seq<Route>, path: string): (e: Option<Element>)
    ensures e.Some? <==> exists i :: 0 <= i < |routes| && routes[i].path == path
    ensures e.Some? ==> exists i :: 0 <= i < |routes| && routes[i].path == path && routes[i].element == e.value
                                    && forall j :: 0 <= j < i ==> routes[j].path != path
  {
    if routes == [] then None
    else if routes[0].path == path then Some(routes[0].element)
    else
      var rest := Match(routes[1..], path);
      if rest.Some? then
        var i :| 0 <= i < |routes| - 1 && routes[1..][i].path == path && routes[1..][i].element == rest.value
                 && forall j :: 0 <= j < i ==> routes[1..][j].path != path;
        assert routes[i + 1] == routes[1..][i];
        assert forall j :: 0 <= j < i + 1 ==> routes[j].path != path by {
          forall j | 0 <= j < i + 1 ensures routes[j].path != path {
            if j > 0 {
              assert routes[j] == routes[1..][j - 1];
            }
          }
        }
        rest
      else rest
  }

  /** The screen at `path`; `None` where no route matches and nothing is rendered. */
  function Resolve<U>(path: string, loading: bool, user: Option<U>): Option<Screen> {
    match Match(Routes, path)
    case None => None
    case Some(e) => Some(Render(e, loading, user))
  }

  /**
   * Following redirects from `path` for at most `hops` steps; the location
   * reached and its screen.
   */
  function Follow<U>(path: string, loading: bool, user: Option<U>, hops: nat): (string, Option<Screen>)
    decreases hops
  {
    match Resolve(path, loading, user)
    case Some(GoTo(to, _)) => if hops == 0 then (path, Resolve(path, loading, user)) else Follow(to, loading, user, hops - 1)
    case other => (path, other)
  }

  /** `/login` is never guarded. */
  lemma LoginUnguarded<U>(loading: bool, user: Option<U>)
    ensures Resolve("/login", loading, user) == Some(Show(LoginPage))
  {
  }

  /**
   * `/dashboard` shows the dashboard exactly to a signed-in user once loading
   * is over, waits while loading, and otherwise replaces the location with `/login`.
   */
  lemma DashboardGuarded<U>(loading: bool, user: Option<U>)
    ensures Resolve("/dashboard", loading, user) == Some(Show(DashboardPage)) <==> !loading && user.Some?
    ensures Resolve("/dashboard", loading, user) == Some(Loading) <==> loading
    ensures Resolve("/dashboard", loading, user) == Some(GoTo("/login", true)) <==> !loading && user.None?
  {
    assert Match(Routes, "/dashboard") == Some(Guarded(DashboardPage)) by {
      assert Routes[0].path != "/dashboard";
    }
  }

  /**
   * Once loading is over, `/` settles within two redirects on the dashboard
   * for a signed-in user and on the login page otherwise.
   */
  lemma {:induction false} RootSettles<U>(user: Option<U>)
    ensures Follow("/", false, user, 2) == (if user.Some? then ("/dashboard", Some(Show(DashboardPage)))
                                            else ("/login", Some(Show(LoginPage))))
  {
    assert Match(Routes, "/") == Some(Navigate("/dashboard", true)) by {
      assert Routes[0].path != "/" && Routes[1].path != "/";
    }
    DashboardGuarded(false, user);
    LoginUnguarded(false, user);
  }
}
