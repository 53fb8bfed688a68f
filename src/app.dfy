/** The application's route table and the two authentication guards around it. */
module App {
  import opened Wrappers
  import Auth
  import MinhaLoja
  import opened SupplierRoute

  datatype Guarded = PublicGuard | ProtectedGuard | SupplierGuard

  datatype PageName = LoginPage | RegisterPage | HomePage | MarketplacePage | MessagesPage
                    | MyProductsPage | NotificationsPage | ProfilePage | MeusPontosPage
                    | MeusOrcamentosPage | MinhaLojaPage

  /** A route: a fixed path, or (when `withParam`) the path followed by one non-empty segment. */
  datatype Route = Route(path: string, withParam: bool, guard: Guarded, page: PageName)

  const Routes: seq<Route> := [
    Route("/login", false, PublicGuard, LoginPage),
    Route("/register", false, PublicGuard, RegisterPage),
    Route("/", false, ProtectedGuard, HomePage),
    Route("/marketplace", false, ProtectedGuard, MarketplacePage),
    Route("/messages", false, ProtectedGuard, MessagesPage),
    Route("/my-products", false, ProtectedGuard, MyProductsPage),
    Route("/notifications", false, ProtectedGuard, NotificationsPage),
    Route("/profile", false, ProtectedGuard, ProfilePage),
    Route("/profile/", true, ProtectedGuard, ProfilePage),
    Route("/meus-pontos", false, ProtectedGuard, MeusPontosPage),
    Route("/meus-orcamentos", false, ProtectedGuard, MeusOrcamentosPage),
    Route("/meus-produtos", false, SupplierGuard, MyProductsPage),
    Route("/minha-loja", false, SupplierGuard, MinhaLojaPage)
  ]

  predicate Matches(r: Route, url: string) {
    if r.withParam then
      r.path < url && '/' !in url[|r.path|..]
    else
      url == r.path
  }

  /** The route a URL selects, or `None` for the catch-all. */
  function FindRoute(routes: seq<Route>, url: string): (r: Option<Route>)
    ensures r.Some? ==> r.value in routes && Matches(r.value, url)
  {
    if routes == [] then None
    else if Matches(routes[0], url) then Some(routes[0])
    else FindRoute(routes[1..], url)
  }

  /** `ProtectedRoute`: spinner while loading, the page when signed in, otherwise the login page. */
  function ProtectedRoute(isAuthenticated: bool, loading: bool): (s: Screen)
    ensures !loading ==> (s == Page <==> isAuthenticated)
    ensures !loading && !isAuthenticated ==> s == Redirect("/login")
  {
    if loading then Spinner
    else if isAuthenticated then Page
    else Redirect("/login")
  }

  /** `PublicRoute`: spinner while loading, home when signed in, otherwise the page. */
  function PublicRoute(isAuthenticated: bool, loading: bool): (s: Screen)
    ensures !loading ==> (s == Page <==> !isAuthenticated)
    ensures !loading && isAuthenticated ==> s == Redirect("/")
  {
    if loading then Spinner
    else if isAuthenticated then Redirect("/")
    else Page
  }

  /** Once loading is over, exactly one of the two guards lets its page through. */
  lemma GuardsComplement(isAuthenticated: bool)
    ensures (ProtectedRoute(isAuthenticated, false) == Page) != (PublicRoute(isAuthenticated, false) == Page)
  {
  }

  /** What the application shows at a URL. */
  datatype View = Shows(page: PageName) | Loading | NavigateTo(target: string) | Denied

  function ViewOf(s: Screen, page: PageName): View {
    match s
    case Spinner => Loading
    case Redirect(to) => NavigateTo(to)
    case AccessDenied => Denied
    case Page => Shows(page)
  }

  /** The routing decision for a URL under a route table, given the signed-in user
      (`isAuthenticated` is `!!user`): the catch-all sends home, otherwise the route's guard decides. */
  function Resolve(routes: seq<Route>, url: string, user: Option<Auth.User>, loading: bool): (v: View)
    ensures FindRoute(routes, url).None? ==> v == NavigateTo("/")
    ensures v.Loading? ==> loading
  {
    match FindRoute(routes, url)
    case None => NavigateTo("/")
    case Some(r) =>
      match r.guard
      case PublicGuard => ViewOf(PublicRoute(user.Some?, loading), r.page)
      case ProtectedGuard => ViewOf(ProtectedRoute(user.Some?, loading), r.page)
      case SupplierGuard => ViewOf(Guard(user, loading), r.page)
  }

  /** The application's routing decision. */
  function Render(url: string, user: Option<Auth.User>, loading: bool): (v: View)
    ensures v.Shows? && user.None? ==> PublicPage(v.page)
    ensures v.Shows? && user.Some? ==> !PublicPage(v.page)
    ensures v == Shows(MinhaLojaPage) ==> user.Some? && IsCompany(user.value)
  {
    RoutesWellGuarded();
    VisitorSeesOnlyPublicPages(Routes, url, loading);
    if user.Some? then
      SignedInNeverSeesLogin(Routes, url, user.value, loading);
      if Resolve(Routes, url, user, loading) == Shows(MinhaLojaPage) then
        StoreDashboardNeedsCompany(Routes, url, user, loading);
        Resolve(Routes, url, user, loading)
      else Resolve(Routes, url, user, loading)
    else Resolve(Routes, url, user, loading)
  }

  predicate PublicPage(p: PageName) {
    p == LoginPage || p == RegisterPage
  }

  /** A table in which exactly the login and registration pages are public and the store
      dashboard sits behind the supplier guard. */
  predicate WellGuarded(routes: seq<Route>) {
    forall r :: r in routes ==>
      (r.guard == PublicGuard <==> PublicPage(r.page)) && (r.page == MinhaLojaPage ==> r.guard == SupplierGuard)
  }

  /** The application's table is such a table. */
  lemma RoutesWellGuarded()
    ensures WellGuarded(Routes)
  {
    forall i | 0 <= i < |Routes|
      ensures Routes[i].guard == PublicGuard <==> PublicPage(Routes[i].page)
      ensures Routes[i].page == MinhaLojaPage ==> Routes[i].guard == SupplierGuard
    {
    }
  }

  /** A visitor who is not signed in sees only the login and registration pages. */
  lemma VisitorSeesOnlyPublicPages(routes: seq<Route>, url: string, loading: bool)
    requires WellGuarded(routes)
    ensures Resolve(routes, url, None, loading).Shows? ==> PublicPage(Resolve(routes, url, None, loading).page)
  {
    var found := FindRoute(routes, url);
    if found.Some? {
      ResolveAt(routes, url, None, loading, found.value);
    }
  }

  /** A signed-in user never sees the login or registration page. */
  lemma SignedInNeverSeesLogin(routes: seq<Route>, url: string, u: Auth.User, loading: bool)
    requires WellGuarded(routes)
    ensures Resolve(routes, url, Some(u), loading).Shows? ==> !PublicPage(Resolve(routes, url, Some(u), loading).page)
  {
    var found := FindRoute(routes, url);
    if found.Some? {
      ResolveAt(routes, url, Some(u), loading, found.value);
    }
  }

  /** The store dashboard is shown to companies only. */
  lemma StoreDashboardNeedsCompany(routes: seq<Route>, url: string, user: Option<Auth.User>, loading: bool)
    requires WellGuarded(routes)
    requires Resolve(routes, url, user, loading) == Shows(MinhaLojaPage)
    ensures user.Some? && IsCompany(user.value)
  {
    var found := FindRoute(routes, url);
    if found.Some? {
      ResolveAt(routes, url, user, loading, found.value);
    }
  }

  /** A URL no route matches falls through to the catch-all. */
  lemma {:induction false} NoMatchFallsThrough(routes: seq<Route>, url: string)
    requires forall r :: r in routes ==> !Matches(r, url)
    ensures FindRoute(routes, url).None?
  {
    if routes != [] {
      assert routes[0] in routes;
      NoMatchFallsThrough(routes[1..], url);
    }
  }

  /** Any URL outside the table sends the user home, whoever they are. */
  lemma UnknownUrlGoesHome(url: string, user: Option<Auth.User>, loading: bool)
    requires forall r :: r in Routes ==> !Matches(r, url)
    ensures Render(url, user, loading) == NavigateTo("/")
  {
    NoMatchFallsThrough(Routes, url);
  }

  /** The first matching route is the one selected. */
  lemma {:induction false} FindRouteAt(routes: seq<Route>, url: string, i: nat)
    requires i < |routes| && Matches(routes[i], url)
    requires forall j :: 0 <= j < i ==> !Matches(routes[j], url)
    ensures FindRoute(routes, url) == Some(routes[i])
  {
    if i > 0 {
      FindRouteAt(routes[1..], url, i - 1);
    }
  }

  /** Under a route the URL selects, the route's guard decides. */
  lemma ResolveAt(routes: seq<Route>, url: string, user: Option<Auth.User>, loading: bool, r: Route)
    requires FindRoute(routes, url) == Some(r)
    ensures r.guard == PublicGuard ==> Resolve(routes, url, user, loading) == ViewOf(PublicRoute(user.Some?, loading), r.page)
    ensures r.guard == ProtectedGuard ==> Resolve(routes, url, user, loading) == ViewOf(ProtectedRoute(user.Some?, loading), r.page)
    ensures r.guard == SupplierGuard ==> Resolve(routes, url, user, loading) == ViewOf(Guard(user, loading), r.page)
  {
  }

  /** The routes before the profile-with-id route are fixed paths that are short or do
      not start with `/p`. */
  lemma RoutesBeforeProfileId()
    ensures forall j :: 0 <= j < 8 ==> !Routes[j].withParam && (|Routes[j].path| <= 8 || Routes[j].path[1] != 'p')
  {
    forall j | 0 <= j < 8
      ensures !Routes[j].withParam && (|Routes[j].path| <= 8 || Routes[j].path[1] != 'p')
    {
    }
  }

  /** A profile URL with a user id selects the profile page behind the sign-in guard. */
  lemma ProfileRoute(id: string)
    requires id != "" && '/' !in id
    ensures FindRoute(Routes, "/profile/" + id) == Some(Route("/profile/", true, ProtectedGuard, ProfilePage))
  {
    var url := "/profile/" + id;
    assert url[..9] == "/profile/" && url[9..] == id;
    assert url[1] == 'p' && |url| > 9;
    RoutesBeforeProfileId();
    FindRouteAt(Routes, url, 8);
  }



  /** `/my-products` selects the product page behind the sign-in guard only. */
  lemma MyProductsRoute()
    ensures FindRoute(Routes, "/my-products") == Some(Route("/my-products", false, ProtectedGuard, MyProductsPage))
  {
    FindRouteAt(Routes, "/my-products", 5);
  }

  /** `/meus-produtos` selects the same page behind the supplier guard. */
  lemma MeusProdutosRoute()
    ensures FindRoute(Routes, "/meus-produtos") == Some(Route("/meus-produtos", false, SupplierGuard, MyProductsPage))
  {
    assert "/meus-produtos"[1] != "/profile/"[1];
    FindRouteAt(Routes, "/meus-produtos", 11);
  }

  /** `/minha-loja` selects the store dashboard behind the supplier guard. */
  lemma MinhaLojaRoute()
    ensures FindRoute(Routes, "/minha-loja") == Some(Route("/minha-loja", false, SupplierGuard, MinhaLojaPage))
  {
    assert "/minha-loja"[1] != "/profile/"[1];
    FindRouteAt(Routes, "/minha-loja", 12);
  }

  /** A service provider is offered the supplier menu, but the supplier guard denies it. */
  lemma ServiceProviderMenuDenied(u: Auth.User)
    requires u.role == Some("SERVICE_PROVIDER")
    ensures MinhaLoja.ShowsSupplierMenu(Some(u))
    ensures Guard(Some(u), false) == AccessDenied
  {
  }
}
