/**
 * The application's routing: a table of routes, each with its auth flag,
 * a guard that decides between rendering a page and redirecting, and the
 * root and catch-all routes that send the visitor home or to the login page.
 */
module Router {
  import opened Wrappers

  const Login := "/login"
  const Home := "/home"
  const Profile := "/profile"
  const Settings := "/settings"
  const Parent := "/parent"
  const Comparison := "/comparison"
  const ComparisonHooks := "/comparison-hooks"
  const VirtualScroll := "/virtual-scroll"
  const Root := "/"

  datatype RouteConfig = RouteConfig(path: string, requireAuth: Option<bool>, title: string)

  /** The guard's decision: render the route's page, or redirect (replacing the history entry). */
  datatype Outcome = Render(path: string) | Redirect(to: string)

  const RouteTable: seq<RouteConfig> := [
    RouteConfig(Login, Some(false), "登录"),
    RouteConfig(Home, Some(true), "首页"),
    RouteConfig(Profile, Some(true), "个人中心"),
    RouteConfig(Parent, Some(true), "父组件"),
    RouteConfig(Comparison, Some(true), "Redux vs Hooks 风格对比"),
    RouteConfig(ComparisonHooks, Some(true), "Hooks 风格演示"),
    RouteConfig(VirtualScroll, Some(true), "虚拟滚动大数据渲染")
  ]

  /** The decision `ProtectedRoute` makes for a page at `path`. */
  function Guard(path: string, requireAuth: bool, isAuthenticated: bool): (o: Outcome)
    ensures requireAuth && !isAuthenticated ==> o == Redirect(Login)
    ensures !requireAuth && isAuthenticated ==> o == Redirect(Home)
    ensures o == Render(path) <==> requireAuth == isAuthenticated
  {
    if requireAuth && !isAuthenticated then Redirect(Login)
    else if !requireAuth && isAuthenticated then Redirect(Home)
    else Render(path)
  }

  /** `route.requireAuth || false`: a missing flag means the route is public. */
  function RequiresAuth(r: RouteConfig): (b: bool)
    ensures r.requireAuth.None? ==> !b
    ensures r.requireAuth.Some? ==> b == r.requireAuth.value
  {
    r.requireAuth.GetOr(false)
  }

  /** Where the root and every unknown path send the visitor. */
  function Fallback(isAuthenticated: bool): (to: string)
    ensures to == if isAuthenticated then Home else Login
  {
    if isAuthenticated then Home else Login
  }

  /** The position of `path` in the table, or -1 when no route has it. */
  function FindRoute(table: seq<RouteConfig>, path: string): (k: int)
    ensures -1 <= k < |table|
    ensures k == -1 <==> forall i :: 0 <= i < |table| ==> table[i].path != path
    ensures k >= 0 ==> table[k].path == path && forall i :: 0 <= i < k ==> table[i].path != path
  {
    if |table| == 0 then -1
    else
      var k := FindRoute(table[..|table| - 1], path);
      if k != -1 then k
      else if table[|table| - 1].path == path then |table| - 1
      else -1
  }

  /** What navigating to `path` shows: a table route passes its guard, anything else falls back. */
  function Resolve(path: string, isAuthenticated: bool): (o: Outcome)
    ensures FindRoute(RouteTable, path) == -1 ==> o == Redirect(Fallback(isAuthenticated))
    ensures o.Render? ==> o.path == path && FindRoute(RouteTable, path) >= 0
    ensures o.Redirect? ==> o.to == Home || o.to == Login
  {
    var k := FindRoute(RouteTable, path);
    if k == -1 then Redirect(Fallback(isAuthenticated))
    else Guard(path, RequiresAuth(RouteTable[k]), isAuthenticated)
  }

  /** No two routes share a path, so the first match is the only match. */
  lemma PathsDistinct()
    ensures forall i, j :: 0 <= i < j < |RouteTable| ==> RouteTable[i].path != RouteTable[j].path
  {
    var t := RouteTable;
    assert t[0].path[1] == 'l' && t[1].path[1] == 'h' && t[2].path[2] == 'r' && t[3].path[2] == 'a';
    assert |t[4].path| == 11 && |t[5].path| == 17 && t[6].path[1] == 'v' && t[2].path[1] == 'p';
  }

  /** Only the login page is public; every other route requires authentication. */
  lemma OnlyLoginIsPublic()
    ensures forall i :: 0 <= i < |RouteTable| ==> (!RequiresAuth(RouteTable[i]) <==> RouteTable[i].path == Login)
  {
    var t := RouteTable;
    assert forall i :: 1 <= i < |t| ==> t[i].path[1] != 'l';
  }

  /** The settings page has a path but no route: it falls back like any unknown path. */
  lemma SettingsFallsBack(isAuthenticated: bool)
    ensures Resolve(Settings, isAuthenticated) == Redirect(Fallback(isAuthenticated))
  {
    var t := RouteTable;
    assert forall i :: 0 <= i < |t| ==> |t[i].path| != |Settings|;
  }

  /** A page of the table is shown exactly when its auth flag matches the visitor's state. */
  lemma TableRouteRendersIffFlagMatches(i: int, isAuthenticated: bool)
    requires 0 <= i < |RouteTable|
    ensures Resolve(RouteTable[i].path, isAuthenticated) == Render(RouteTable[i].path)
      <==> RequiresAuth(RouteTable[i]) == isAuthenticated
  {
    PathsDistinct();
    var k := FindRoute(RouteTable, RouteTable[i].path);
    assert k == i;
  }

  /** Every redirect lands on a page that renders: redirects never chain. */
  lemma RedirectsSettle(path: string, isAuthenticated: bool)
    ensures Resolve(path, isAuthenticated).Redirect? ==>
      var to := Resolve(path, isAuthenticated).to;
      Resolve(to, isAuthenticated) == Render(to)
  {
    var t := RouteTable;
    assert t[0].path == Login && t[1].path == Home && t[0].path != Home;
    assert FindRoute(t, Login) == 0;
    assert FindRoute(t, Home) == 1;
  }
}
