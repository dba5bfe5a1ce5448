/** The route table of `App`: which page each path shows and which paths go
    through `ProtectedRoute`. */
module App {
  import opened Js
  import opened Browser
  import opened ProtectedRoute

  datatype Page = HomePage | RegistrationPage | LoginPage | MembersPage | AdminPage | AddProductPage

  /** A route's element: the page itself, or the page wrapped in `ProtectedRoute`. */
  datatype Element = Open(page: Page) | Protected(page: Page)

  const Routes: seq<(string, Element)> := [
    ("/", Open(HomePage)),
    ("/registration", Open(RegistrationPage)),
    ("/login", Open(LoginPage)),
    ("/members", Open(MembersPage)),
    ("/admin", Protected(AdminPage)),
    ("/admin/add-product", Protected(AddProductPage))
  ]

  /** The element of the first route in `table` whose path is `path`. */
  function Lookup(table: seq<(string, Element)>, path: string): (r: Option<Element>)
    ensures r.Some? <==> exists i :: 0 <= i < |table| && table[i].0 == path
    ensures r.Some? ==> exists i :: 0 <= i < |table| && table[i] == (path, r.value)
    decreases |table|
  {
    if table == [] then None
    else if table[0].0 == path then
      assert table[0] == (path, table[0].1);
      Some(table[0].1)
    else
      var r := Lookup(table[1..], path);
      assert forall i :: 1 <= i < |table| ==> table[i] == table[1..][i - 1];
      r
  }

  /** What the router shows for a path. */
  datatype Screen = Show(page: Page) | RedirectTo(to: string) | NoMatch

  function Render(st: Storage, path: string): (r: Screen)
    ensures r.NoMatch? <==> forall i :: 0 <= i < |Routes| ==> Routes[i].0 != path
    ensures r.RedirectTo? ==> r.to == LoginPath && !IsLoggedIn(st)
    ensures path == "/admin" && !IsLoggedIn(st) ==> r.RedirectTo?
  {
    match Lookup(Routes, path)
    case None => NoMatch
    case Some(Open(p)) => Show(p)
    case Some(Protected(p)) =>
      match Guard(st, p)
      case Children(q) => Show(q)
      case Redirect(to) => RedirectTo(to)
  }

  /** The six paths are pairwise distinct, so each path names one element. */
  lemma RoutePathsDistinct()
    ensures forall i, j :: 0 <= i < j < |Routes| ==> Routes[i].0 != Routes[j].0
  {
  }

  /** `/admin` shows the admin page exactly when a token is stored, else redirects to `/login`. */
  lemma AdminIsGuarded(st: Storage)
    ensures Render(st, "/admin") == if IsLoggedIn(st) then Show(AdminPage) else RedirectTo(LoginPath)
  {
  }

  /** `/admin/add-product` shows the product form exactly when a token is stored. */
  lemma AddProductIsGuarded(st: Storage)
    ensures Render(st, "/admin/add-product") == if IsLoggedIn(st) then Show(AddProductPage) else RedirectTo(LoginPath)
  {
  }

  /** `/`, `/registration`, `/login` and `/members` show their page whatever is stored. */
  lemma OpenRoutesAreUnguarded(st: Storage)
    ensures Render(st, "/") == Show(HomePage)
    ensures Render(st, "/registration") == Show(RegistrationPage)
    ensures Render(st, "/login") == Show(LoginPage)
    ensures Render(st, "/members") == Show(MembersPage)
  {
  }

  /** Whatever the path, the admin and product pages are only ever shown to a
      browser that has a token stored. */
  lemma ProtectedPagesNeedToken(st: Storage, path: string)
    requires Render(st, path) == Show(AdminPage) || Render(st, path) == Show(AddProductPage)
    ensures IsLoggedIn(st)
  {
    var e := Lookup(Routes, path);
    assert e.Some?;
    var i :| 0 <= i < |Routes| && Routes[i] == (path, e.value);
    assert e.value.Protected?;
  }
}
