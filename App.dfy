/** The application's route table and its two session guards (src/App.tsx).
    The auth context's current value is an input. */
module App {
  import opened Types

  /** What the auth context reports: the user, if any, and whether the
      session is still being resolved. */
  datatype AuthState = AuthState(user: Option<User>, loading: bool)

  /** The pages the routes lead to. */
  datatype Page = LoginPage | RegisterPage | DashboardPage | AddExpensePage | ProfilePage

  /** A guard's children: a page, on its own or wrapped in the layout. */
  datatype Element = Bare(page: Page) | InLayout(page: Page)

  /** What a guard renders. */
  datatype Rendered = LoadingPlaceholder | Navigate(to: string) | Show(element: Element)

  datatype Guard = PublicGuard | PrivateGuard

  /** One entry of the route table. */
  datatype Route = Route(path: string, guard: Guard, element: Element)

  /** Protected content: a loading placeholder while the session resolves,
      then the children for a signed-in user and a redirect to the login
      page otherwise. */
  function PrivateRoute(auth: AuthState, children: Element): (r: Rendered)
    ensures r == LoadingPlaceholder <==> auth.loading
    ensures r == Show(children) <==> !auth.loading && auth.user.Some?
    ensures r == Navigate("/login") <==> !auth.loading && auth.user.None?
  {
    if auth.loading then LoadingPlaceholder
    else if auth.user.Some? then Show(children)
    else Navigate("/login")
  }

  /** Sign-in pages: a signed-in user is sent to the home page, anyone else
      sees the children. The loading flag is not consulted. */
  function PublicRoute(auth: AuthState, children: Element): (r: Rendered)
    ensures r == Navigate("/") <==> auth.user.Some?
    ensures r == Show(children) <==> auth.user.None?
  {
    if auth.user.Some? then Navigate("/") else Show(children)
  }

  /** A guard applied to its children. */
  function Guarded(guard: Guard, auth: AuthState, children: Element): Rendered
  {
    match guard
    case PublicGuard => PublicRoute(auth, children)
    case PrivateGuard => PrivateRoute(auth, children)
  }

  /** The route table: two public sign-in pages, three protected pages
      inside the layout. */
  const Routes: seq<Route> := [
    Route("/login", PublicGuard, Bare(LoginPage)),
    Route("/register", PublicGuard, Bare(RegisterPage)),
    Route("/", PrivateGuard, InLayout(DashboardPage)),
    Route("/add-expense", PrivateGuard, InLayout(AddExpensePage)),
    Route("/profile", PrivateGuard, InLayout(ProfilePage))
  ]

  /** The route whose path is `path`, searching the table in order. */
  function FindRoute(routes: seq<Route>, path: string): (r: Option<Route>)
    ensures r.None? <==> forall i :: 0 <= i < |routes| ==> routes[i].path != path
    ensures r.Some? ==> r.value in routes && r.value.path == path
  {
    if routes == [] then None
    else if routes[0].path == path then Some(routes[0])
    else
      var r := FindRoute(routes[1..], path);
      assert forall i :: 1 <= i < |routes| ==> routes[i] == routes[1..][i - 1];
      r
  }

  /** What visiting `path` renders; None when no route matches. */
  function Visit(path: string, auth: AuthState): Option<Rendered>
  {
    match FindRoute(Routes, path)
    case Some(route) => Some(Guarded(route.guard, auth, route.element))
    case None => None
  }

  /** The paths guarded by the private guard. */
  predicate IsProtectedPath(path: string)
  {
    path == "/" || path == "/add-expense" || path == "/profile"
  }

  /** The paths guarded by the public guard. */
  predicate IsPublicPath(path: string)
  {
    path == "/login" || path == "/register"
  }

  // ---------------------------------------------------------------------
  // Properties of the table and the guards

  /** The public guard's outcome does not depend on the loading flag. */
  lemma PublicRouteIgnoresLoading(user: Option<User>, children: Element)
    ensures PublicRoute(AuthState(user, true), children) == PublicRoute(AuthState(user, false), children)
  {
  }

  /** No two routes share a path, and each path has the guard and the
      element the table declares: the sign-in pages bare behind the
      public guard, the rest inside the layout behind the private guard. */
  lemma RouteTableShape()
    ensures forall i, j :: 0 <= i < j < |Routes| ==> Routes[i].path != Routes[j].path
    ensures forall i :: 0 <= i < |Routes| ==>
      (Routes[i].guard == PublicGuard <==> IsPublicPath(Routes[i].path)) &&
      (Routes[i].guard == PrivateGuard <==> IsProtectedPath(Routes[i].path)) &&
      (Routes[i].guard == PrivateGuard <==> Routes[i].element.InLayout?)
    ensures forall path :: IsPublicPath(path) || IsProtectedPath(path) <==>
      exists i :: 0 <= i < |Routes| && Routes[i].path == path
  {
    assert Routes[0].path == "/login";
    assert Routes[1].path == "/register";
    assert Routes[2].path == "/";
    assert Routes[3].path == "/add-expense";
    assert Routes[4].path == "/profile";
  }

  /** Visiting a path: a protected one behaves as the private guard on its
      page in the layout, a public one as the public guard on its bare page,
      and any other path matches no route. */
  lemma VisitCases(path: string, auth: AuthState)
    ensures path == "/login" ==> Visit(path, auth) == Some(PublicRoute(auth, Bare(LoginPage)))
    ensures path == "/register" ==> Visit(path, auth) == Some(PublicRoute(auth, Bare(RegisterPage)))
    ensures path == "/" ==> Visit(path, auth) == Some(PrivateRoute(auth, InLayout(DashboardPage)))
    ensures path == "/add-expense" ==> Visit(path, auth) == Some(PrivateRoute(auth, InLayout(AddExpensePage)))
    ensures path == "/profile" ==> Visit(path, auth) == Some(PrivateRoute(auth, InLayout(ProfilePage)))
    ensures !IsPublicPath(path) && !IsProtectedPath(path) ==> Visit(path, auth) == None
  {
    RouteTableShape();
  }

  /** A visitor who is not signed in (and not resolving) is redirected to
      the login page from every protected path, and is never shown
      protected content on any path. */
  lemma SignedOutNeverSeesProtected(path: string, auth: AuthState)
    requires auth.user.None? && !auth.loading
    ensures IsProtectedPath(path) ==> Visit(path, auth) == Some(Navigate("/login"))
    ensures forall e :: Visit(path, auth) == Some(Show(e)) ==> e.Bare?
  {
    VisitCases(path, auth);
  }

  /** Protected content is shown only to a signed-in user once the session
      has resolved. */
  lemma ProtectedContentNeedsSession(path: string, auth: AuthState, p: Page)
    requires Visit(path, auth) == Some(Show(InLayout(p)))
    ensures auth.user.Some? && !auth.loading && IsProtectedPath(path)
  {
    VisitCases(path, auth);
  }

  /** A signed-in user is never shown the login or registration page: both
      redirect to the home page, whatever the loading flag. */
  lemma SignedInNeverSeesSignIn(path: string, auth: AuthState)
    requires auth.user.Some?
    ensures IsPublicPath(path) ==> Visit(path, auth) == Some(Navigate("/"))
    ensures Visit(path, auth) != Some(Show(Bare(LoginPage)))
    ensures Visit(path, auth) != Some(Show(Bare(RegisterPage)))
  {
    VisitCases(path, auth);
  }

  /** While the session resolves, every protected path shows the loading
      placeholder; a public path still shows its page to a visitor with no
      user. */
  lemma ResolvingSession(path: string, auth: AuthState)
    requires auth.loading
    ensures IsProtectedPath(path) ==> Visit(path, auth) == Some(LoadingPlaceholder)
    ensures auth.user.None? && path == "/login" ==> Visit(path, auth) == Some(Show(Bare(LoginPage)))
  {
    VisitCases(path, auth);
  }

  /** Redirects never chain: every redirect leads to a path of the table
      that, under the same session state, renders without redirecting. */
  lemma RedirectsSettle(path: string, auth: AuthState, to: string)
    requires Visit(path, auth) == Some(Navigate(to))
    ensures Visit(to, auth).Some? && !Visit(to, auth).value.Navigate?
  {
    VisitCases(path, auth);
    if to == "/login" {
      VisitCases("/login", auth);
    } else {
      VisitCases("/", auth);
    }
  }
}
