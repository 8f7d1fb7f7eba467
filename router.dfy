/** The navigation guard of `router/index.js`: a navigation to a route that
    requires authentication is sent to '/login' (remembering where it was
    going) unless a token is stored. Route matching and the merging of route
    meta are vue-router's and are not modelled: the guard is given the
    merged `requiresAuth` flag. */
module Router {
  import opened Dom
  import Auth

  /** The target of a navigation, as the guard sees it. `requiresAuth` is
      the merged `meta.requiresAuth` of the matched route records. */
  datatype Target = Target(fullPath: string, requiresAuth: bool)

  datatype Decision = Proceed | Redirect(path: string, query: map<string, string>)

  /** `!!localStorage.getItem('auth_token')`. */
  predicate Authed(storage: map<string, string>)
  {
    Set(storage, Auth.TokenKey)
  }

  /** `router.beforeEach`. */
  function Guard(to: Target, storage: map<string, string>): (d: Decision)
    ensures d.Redirect? <==> to.requiresAuth && !Authed(storage)
    ensures d.Redirect? ==> d == Redirect("/login", map["next" := to.fullPath])
  {
    if to.requiresAuth && !Authed(storage) then Redirect("/login", map["next" := to.fullPath]) else Proceed
  }

  /** The authenticated flag holds exactly when a non-empty token is stored,
      which is what a successful login leaves behind and a logout removes. */
  lemma AuthedAfterLoginAndLogout(storage: map<string, string>, userText: string)
    ensures Authed(storage) <==> Auth.TokenKey in storage && storage[Auth.TokenKey] != ""
    ensures Authed(storage[Auth.TokenKey := Auth.DevToken][Auth.UserKey := userText])
    ensures !Authed(storage - {Auth.TokenKey, Auth.UserKey})
  {
  }

  /** A top-level route record: its path and whether its meta asks for
      authentication (children inherit the flag of '/settings'). */
  datatype RouteRecord = RouteRecord(path: string, requiresAuth: bool)

  const Routes: seq<RouteRecord> := [
    RouteRecord("/login", false),
    RouteRecord("/", false),
    RouteRecord("/dashboard", true),
    RouteRecord("/logbook", true),
    RouteRecord("/failures/new", true),
    RouteRecord("/failures/edit/:id", true),
    RouteRecord("/reports-now", true),
    RouteRecord("/supervisor-movements", true),
    RouteRecord("/settings", true),
    RouteRecord("/analytics", false),
    RouteRecord("/:pathMatch(.*)*", false)
  ]

  /** The guard never redirects a navigation to a record without
      `requiresAuth`, such as '/login' or '/analytics', whatever is stored. */
  lemma PublicRoutesNeverRedirect(i: nat, fullPath: string, storage: map<string, string>)
    requires i < |Routes| && (Routes[i].path == "/login" || Routes[i].path == "/analytics")
    ensures !Routes[i].requiresAuth
    ensures Guard(Target(fullPath, Routes[i].requiresAuth), storage) == Proceed
  {
  }
}
