/** The route table and the before-each navigation guard of `src/main.js`, and
    the router as the transport sees it (a current location and the
    navigations it has been asked to make). */
module Routes {
  import opened Js
  import opened BrowserStorage

  datatype RouteName = Home | Login | Register | Dashboard | Profile | LinkStats | NotFound

  /** One entry of the route table; `requiresAuth` is `meta.requiresAuth`
      (false where the entry has no `meta`). */
  datatype RouteRecord = RouteRecord(path: string, name: RouteName, requiresAuth: bool)

  const Table: seq<RouteRecord> := [
    RouteRecord("/", Home, false),
    RouteRecord("/login", Login, false),
    RouteRecord("/register", Register, false),
    RouteRecord("/dashboard", Dashboard, true),
    RouteRecord("/profile", Profile, true),
    RouteRecord("/links/:id/stats", LinkStats, true),
    RouteRecord("/:pathMatch(.*)*", NotFound, false)
  ]

  /** The first record of `table` carrying `name`. */
  function Find(table: seq<RouteRecord>, name: RouteName): (r: Option<RouteRecord>)
    ensures r.Some? ==> r.value in table && r.value.name == name
    ensures r.None? ==> forall i :: 0 <= i < |table| ==> table[i].name != name
  {
    if table == [] then None
    else if table[0].name == name then Some(table[0])
    else Find(table[1..], name)
  }

  function RequiresAuth(name: RouteName): bool {
    match Find(Table, name)
    case Some(r) => r.requiresAuth
    case None => false
  }

  function PathOf(name: RouteName): string {
    match Find(Table, name)
    case Some(r) => r.path
    case None => "/"
  }

  /** Every route name has one entry, and exactly the dashboard, the profile
      and the link statistics views are protected. */
  lemma ProtectedRoutes(name: RouteName)
    ensures Find(Table, name).Some?
    ensures RequiresAuth(name) <==> name == Dashboard || name == Profile || name == LinkStats
    ensures name == Login ==> PathOf(name) == "/login"
    ensures name == Dashboard ==> PathOf(name) == "/dashboard"
  {
  }

  /** The route a navigation is going to: `to.name`, `to.fullPath` and `to.meta.requiresAuth`. */
  datatype Target = Target(name: RouteName, fullPath: string, requiresAuth: bool)

  /** The target of a navigation to `name` at `fullPath`, with its meta taken from the table. */
  function Resolve(name: RouteName, fullPath: string): Target {
    Target(name, fullPath, RequiresAuth(name))
  }

  /** A named location `{ name, query: { redirect } }` handed to `next` or `router.push`. */
  datatype Location = Location(name: RouteName, redirect: Option<string>)

  /** The full path of a location (query values are not percent-encoded here). */
  function Href(loc: Location): string {
    PathOf(loc.name) + match loc.redirect { case Some(p) => "?redirect=" + p case None => "" }
  }

  function LocationTarget(loc: Location): Target {
    Resolve(loc.name, Href(loc))
  }

  /** What the guard passes to `next`. */
  datatype Decision = Allow | ToLogin(redirect: string) | ToDashboard {
    /** The location a redirecting decision sends the router to. */
    function Next(): Location
      requires !Allow?
    {
      match this
      case ToLogin(p) => Location(Login, Some(p))
      case ToDashboard => Location(Dashboard, None)
    }
  }

  predicate IsAuthRoute(name: RouteName) {
    name == Login || name == Register
  }

  /** `router.beforeEach`: the token read from storage decides. Each of the three
      outcomes is produced exactly when its row of the decision table applies. */
  function Guard(to: Target, items: Items): (d: Decision)
    ensures d == ToLogin(to.fullPath) <==> to.requiresAuth && !HasToken(items)
    ensures d == ToDashboard <==> IsAuthRoute(to.name) && HasToken(items)
    ensures d == Allow <==> !(to.requiresAuth && !HasToken(items)) && !(IsAuthRoute(to.name) && HasToken(items))
  {
    var isAuthenticated := HasToken(items);
    if to.requiresAuth && !isAuthenticated then ToLogin(to.fullPath)
    else if IsAuthRoute(to.name) && isAuthenticated then ToDashboard
    else Allow
  }

  /** A protected route is never entered without a stored token. */
  lemma ProtectedNeedsToken(name: RouteName, fullPath: string, items: Items)
    requires Guard(Resolve(name, fullPath), items) == Allow
    ensures name == Dashboard || name == Profile || name == LinkStats ==> HasToken(items)
  {
  }

  /** The guard settles after one redirect: the location it redirects to is
      allowed when the guard runs again on the same storage. */
  lemma RedirectSettles(to: Target, items: Items)
    requires Guard(to, items) != Allow
    ensures Guard(LocationTarget(Guard(to, items).Next()), items) == Allow
  {
  }

  /** What navigation ends at: the target itself, or where its one redirect leads. */
  function Settle(to: Target, items: Items): (t: Target)
    ensures Guard(t, items) == Allow
    ensures t.requiresAuth ==> HasToken(items)
    ensures Guard(to, items) == Allow ==> t == to
    ensures Guard(to, items).ToLogin? ==> t.name == Login && t.fullPath == "/login?redirect=" + to.fullPath
    ensures Guard(to, items).ToDashboard? ==> t.name == Dashboard && t.fullPath == "/dashboard"
  {
    var d := Guard(to, items);
    if d == Allow then to
    else
      RedirectSettles(to, items);
      ProtectedRoutes(d.Next().name);
      LocationTarget(d.Next())
  }

  /** The router as seen from the transport: its current route and the
      navigations pushed onto it, recorded in order. */
  class Router {
    var currentFullPath: string
    var pushed: seq<Location>

    constructor (fullPath: string)
      ensures currentFullPath == fullPath && pushed == []
    {
      currentFullPath := fullPath;
      pushed := [];
    }

    method Push(loc: Location)
      modifies this
      ensures pushed == old(pushed) + [loc]
      ensures currentFullPath == old(currentFullPath)
    {
      pushed := pushed + [loc];
    }
  }
}
