/** Route protection in `frontend/src/App.js`: the `ProtectedRoute` decision
    and which routes it wraps. */
module Routes {
  import opened Common

  /** What `ProtectedRoute` renders. */
  datatype Screen = LoadingView | RedirectTo(path: string) | Children

  /** `ProtectedRoute({ children, requireAdmin })` given the auth context's
      `loading` flag and `user` (None when nobody is signed in). */
  function Guard(loading: bool, user: Option<User>, requireAdmin: bool): (d: Screen)
    ensures loading ==> d == LoadingView
    ensures d == Children <==> !loading && user.Some? && (!requireAdmin || IsAdmin(user.value))
    ensures d.RedirectTo? <==> !loading && (user.None? || (requireAdmin && !IsAdmin(user.value)))
    ensures d.RedirectTo? ==> d.path == (if user.None? then "/login" else "/")
  {
    if loading then LoadingView
    else if user.None? then RedirectTo("/login")
    else if requireAdmin && !IsAdmin(user.value) then RedirectTo("/")
    else Children
  }

  /** The admin guard lets through no one the plain guard would stop. */
  lemma AdminGuardIsStricter(loading: bool, user: Option<User>)
    ensures Guard(loading, user, true) == Children ==> Guard(loading, user, false) == Children
  {
  }

  /** How a route's element is wrapped. */
  datatype Protection = Open | Protected(requireAdmin: bool)

  datatype Route = Route(pattern: string, protection: Protection)

  /** `<ProtectedRoute>` with `requireAdmin` left at its default. */
  const LoginRequired: Protection := Protected(false)

  /** The route table, in declaration order. */
  const RouteTable: seq<Route> := [
    Route("/", Open),
    Route("/search", Open),
    Route("/product/:id", Open),
    Route("/login", Open),
    Route("/signup", Open),
    Route("/cart", LoginRequired),
    Route("/checkout", LoginRequired),
    Route("/wishlist", LoginRequired),
    Route("/profile", LoginRequired),
    Route("/admin", Protected(true))
  ]

  const ProductPrefix: string := "/product/"

  /** A pattern matches its own path; `/product/:id` matches one non-empty segment after the prefix. */
  predicate PatternMatches(pattern: string, path: string) {
    if pattern == "/product/:id" then
      |path| > |ProductPrefix| && path[..|ProductPrefix|] == ProductPrefix && '/' !in path[|ProductPrefix|..]
    else path == pattern
  }

  /** The protection of the first route matching `path`, None when no route does. */
  function ProtectionOf(table: seq<Route>, path: string): (r: Option<Protection>)
    ensures r.None? <==> forall k :: 0 <= k < |table| ==> !PatternMatches(table[k].pattern, path)
    ensures r.Some? ==> exists k :: 0 <= k < |table| && PatternMatches(table[k].pattern, path) && table[k].protection == r.value
  {
    if table == [] then None
    else if PatternMatches(table[0].pattern, path) then Some(table[0].protection)
    else
      var r := ProtectionOf(table[1..], path);
      assert forall k :: 1 <= k < |table| ==> table[k] == table[1..][k - 1];
      if r.Some? then
        var k :| 0 <= k < |table[1..]| && PatternMatches(table[1..][k].pattern, path) && table[1..][k].protection == r.value;
        assert table[k + 1] == table[1..][k];
        r
      else r
  }

  /** The first matching route decides. */
  lemma {:induction false} FirstMatch(table: seq<Route>, path: string, k: nat)
    requires k < |table| && PatternMatches(table[k].pattern, path)
    requires forall j :: 0 <= j < k ==> !PatternMatches(table[j].pattern, path)
    ensures ProtectionOf(table, path) == Some(table[k].protection)
  {
    if k > 0 {
      assert forall j :: 0 <= j < k - 1 ==> table[1..][j] == table[j + 1];
      FirstMatch(table[1..], path, k - 1);
    }
  }

  /** No path matches two routes of the table, so taking the first match
      agrees with a router that ranks matching routes by specificity. */
  lemma RouteTableUnambiguous(path: string, a: nat, b: nat)
    requires a < b < |RouteTable|
    ensures !(PatternMatches(RouteTable[a].pattern, path) && PatternMatches(RouteTable[b].pattern, path))
  {
    if (a == 2 || b == 2) && PatternMatches("/product/:id", path) {
      assert path[1] == 'p' by { assert path[..|ProductPrefix|][1] == ProductPrefix[1]; }
    }
  }

  /** What the router renders for `path`: the element itself for an open
      route, the guard's decision for a protected one, nothing for no match. */
  function Visit(path: string, loading: bool, user: Option<User>): Option<Screen> {
    match ProtectionOf(RouteTable, path)
    case None => None
    case Some(Open) => Some(Children)
    case Some(Protected(requireAdmin)) => Some(Guard(loading, user, requireAdmin))
  }

  /** `/admin` renders only for a signed-in admin once loading is over. */
  lemma AdminPage(loading: bool, user: Option<User>)
    ensures Visit("/admin", loading, user) == Some(Guard(loading, user, true))
    ensures Visit("/admin", loading, user) == Some(Children) <==> !loading && user.Some? && IsAdmin(user.value)
  {
    FirstMatch(RouteTable, "/admin", 9);
  }

  /** The cart, checkout, wishlist and profile pages need a signed-in user of any role. */
  lemma MemberPages(path: string, loading: bool, user: Option<User>)
    requires path in {"/cart", "/checkout", "/wishlist", "/profile"}
    ensures Visit(path, loading, user) == Some(Guard(loading, user, false))
    ensures Visit(path, loading, user) == Some(Children) <==> !loading && user.Some?
  {
    var k := if path == "/cart" then 5 else if path == "/checkout" then 6 else if path == "/wishlist" then 7 else 8;
    FirstMatch(RouteTable, path, k);
  }

  /** Home, search, product pages, login and signup render for everyone, at once. */
  lemma PublicPages(path: string, loading: bool, user: Option<User>)
    requires path in {"/", "/search", "/login", "/signup"} || PatternMatches("/product/:id", path)
    ensures Visit(path, loading, user) == Some(Children)
  {
    if PatternMatches("/product/:id", path) {
      assert path[1] == 'p' by { assert path[..|ProductPrefix|][1] == ProductPrefix[1]; }
      FirstMatch(RouteTable, path, 2);
    } else {
      var k := if path == "/" then 0 else if path == "/search" then 1 else if path == "/login" then 3 else 4;
      FirstMatch(RouteTable, path, k);
    }
  }
}
