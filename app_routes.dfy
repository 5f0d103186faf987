/** The route table and the two route guards of the single-page application
    (src/App.tsx). A guard sees the provider's `isLoading` flag and the
    signed-in user; it shows a spinner, redirects, or shows the guarded page. */
module AppRoutes {
  import opened Common
  import opened Api
  import opened AuthContext

  /** What a guard renders in place of its children. */
  datatype View = Spinner | RedirectTo(path: string) | Children

  /** `ProtectedRoute`: wait for start-up, then require a signed-in user. */
  function ProtectedRoute(isLoading: bool, user: Option<User>): (v: View)
    ensures v == Spinner <==> isLoading
    ensures v == RedirectTo("/login") <==> !isLoading && !IsAuthenticated(user)
    ensures v == Children <==> !isLoading && IsAuthenticated(user)
  {
    if isLoading then Spinner
    else if !IsAuthenticated(user) then RedirectTo("/login")
    else Children
  }

  /** `AdminRoute`: as `ProtectedRoute`, and a signed-in user who is not an
      administrator is sent to the customer dashboard. */
  function AdminRoute(isLoading: bool, user: Option<User>): (v: View)
    ensures v == Spinner <==> isLoading
    ensures v == RedirectTo("/login") <==> !isLoading && !IsAuthenticated(user)
    ensures v == RedirectTo("/dashboard") <==> !isLoading && IsAuthenticated(user) && !IsAdmin(user)
    ensures v == Children <==> !isLoading && IsAdmin(user)
  {
    AdminIsAuthenticated(user);
    if isLoading then Spinner
    else if !IsAuthenticated(user) then RedirectTo("/login")
    else if !IsAdmin(user) then RedirectTo("/dashboard")
    else Children
  }

  /** Whatever the administrator guard lets through, the customer guard lets through too. */
  lemma AdminRouteImpliesProtected(isLoading: bool, user: Option<User>)
    ensures AdminRoute(isLoading, user) == Children ==> ProtectedRoute(isLoading, user) == Children
    ensures ProtectedRoute(isLoading, user) == Spinner <==> AdminRoute(isLoading, user) == Spinner
  {
  }

  datatype Guard = Open | Protected | AdminOnly

  datatype Page =
    | IndexPage | LoginPage | RegisterPage | BooksPage
    | CartPage | MyOrdersPage | CustomerDashboardPage
    | AdminDashboardPage | AdminBooksPage | AdminOrdersPage
    | NotFoundPage

  predicate IsAdminPage(p: Page)
  {
    p == AdminDashboardPage || p == AdminBooksPage || p == AdminOrdersPage
  }

  predicate IsCustomerPage(p: Page)
  {
    p == CartPage || p == MyOrdersPage || p == CustomerDashboardPage
  }

  /** The `<Routes>` of `AppRoutes`: the page declared for `path`, the
      first declaration that matches winning, and "*" (not found) for every
      path none of the others names. */
  function PageAt(path: string): Page
  {
    if path == "/" then IndexPage
    else if path == "/login" then LoginPage
    else if path == "/register" then RegisterPage
    else if path == "/books" then BooksPage
    else if path == "/cart" then CartPage
    else if path == "/my-orders" then MyOrdersPage
    else if path == "/dashboard" then CustomerDashboardPage
    else if path == "/admin" then AdminDashboardPage
    else if path == "/admin/books" then AdminBooksPage
    else if path == "/admin/orders" then AdminOrdersPage
    else NotFoundPage
  }

  /** The paths the table declares, the catch-all aside. */
  const DeclaredPaths: set<string> :=
    {"/", "/login", "/register", "/books", "/cart", "/my-orders", "/dashboard",
     "/admin", "/admin/books", "/admin/orders"}

  /** Exactly the declared paths have a page of their own; every other path is "not found". */
  lemma NotFoundExactlyOffTable(path: string)
    ensures PageAt(path) == NotFoundPage <==> path !in DeclaredPaths
  {
  }

  /** The guard each page's route element is wrapped in. */
  function GuardOf(p: Page): (g: Guard)
    ensures g == AdminOnly <==> IsAdminPage(p)
    ensures g == Protected <==> IsCustomerPage(p)
  {
    match p
    case CartPage | MyOrdersPage | CustomerDashboardPage => Protected
    case AdminDashboardPage | AdminBooksPage | AdminOrdersPage => AdminOnly
    case _ => Open
  }

  /** The path a page is declared at (not found has none of its own). */
  function PathOf(p: Page): (path: string)
    requires p != NotFoundPage
    ensures PageAt(path) == p
  {
    match p
    case IndexPage => "/"
    case LoginPage => "/login"
    case RegisterPage => "/register"
    case BooksPage => "/books"
    case CartPage => "/cart"
    case MyOrdersPage => "/my-orders"
    case CustomerDashboardPage => "/dashboard"
    case AdminDashboardPage => "/admin"
    case AdminBooksPage => "/admin/books"
    case AdminOrdersPage => "/admin/orders"
  }

  /** Each declared path leads to its page and back: no two routes share a
      path, and no declared route is shadowed by an earlier one. */
  lemma PathsRoundTrip(path: string)
    ensures PageAt(path) != NotFoundPage ==> PathOf(PageAt(path)) == path
  {
  }

  /** The table: four open pages, three customer pages, three administration pages. */
  lemma RouteTable()
    ensures GuardOf(PageAt("/")) == Open && GuardOf(PageAt("/login")) == Open
    ensures GuardOf(PageAt("/register")) == Open && GuardOf(PageAt("/books")) == Open
    ensures PageAt("/cart") == CartPage && GuardOf(CartPage) == Protected
    ensures PageAt("/my-orders") == MyOrdersPage && GuardOf(MyOrdersPage) == Protected
    ensures PageAt("/dashboard") == CustomerDashboardPage && GuardOf(CustomerDashboardPage) == Protected
    ensures PageAt("/admin") == AdminDashboardPage && GuardOf(AdminDashboardPage) == AdminOnly
    ensures PageAt("/admin/books") == AdminBooksPage && GuardOf(AdminBooksPage) == AdminOnly
    ensures PageAt("/admin/orders") == AdminOrdersPage && GuardOf(AdminOrdersPage) == AdminOnly
  {
  }

  /** What the browser shows at `path`. */
  datatype Screen = Loading | Redirect(to: string) | Shows(page: Page)

  function GuardView(g: Guard, isLoading: bool, user: Option<User>): View
  {
    match g
    case Open => Children
    case Protected => ProtectedRoute(isLoading, user)
    case AdminOnly => AdminRoute(isLoading, user)
  }

  function Render(path: string, isLoading: bool, user: Option<User>): Screen
  {
    var page := PageAt(path);
    match GuardView(GuardOf(page), isLoading, user)
    case Spinner => Loading
    case RedirectTo(to) => Redirect(to)
    case Children => Shows(page)
  }

  /** No administration page is ever shown to anyone but a signed-in
      administrator, no customer page to anyone signed out, and neither while
      the session is still being restored. Open pages always show. */
  lemma GuardedPagesNeedSession(path: string, isLoading: bool, user: Option<User>)
    ensures Render(path, isLoading, user).Shows? && IsAdminPage(Render(path, isLoading, user).page) ==>
              !isLoading && IsAdmin(user)
    ensures Render(path, isLoading, user).Shows? && IsCustomerPage(Render(path, isLoading, user).page) ==>
              !isLoading && IsAuthenticated(user)
    ensures GuardOf(PageAt(path)) == Open ==> Render(path, isLoading, user) == Shows(PageAt(path))
  {
  }

  /** A guard's redirect lands on a page that shows without a further redirect:
      a signed-out visitor sent to "/login" sees the login page, and a customer
      sent to "/dashboard" sees the customer dashboard. */
  lemma RedirectsSettle(path: string, user: Option<User>)
    ensures Render(path, false, user).Redirect? ==>
              Render(Render(path, false, user).to, false, user).Shows?
  {
    var s := Render(path, false, user);
    if s.Redirect? {
      AdminIsAuthenticated(user);
      assert PageAt(PathOf(LoginPage)) == LoginPage;
      assert PageAt(PathOf(CustomerDashboardPage)) == CustomerDashboardPage;
    }
  }
}
