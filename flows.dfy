/** How the pieces meet: the stored session written by the auth store is what
    the transport attaches and what the route guard reads, and a 401 seen by
    the transport is what ends it. */
module Flows {
  import opened Js
  import opened Http
  import opened BrowserStorage
  import opened Routes
  import opened Transport
  import opened Auth

  /** An anonymous visit to `/dashboard` is sent to `/login?redirect=/dashboard`. */
  lemma AnonymousDashboard(items: Items)
    requires !HasToken(items)
    ensures Guard(Resolve(Dashboard, "/dashboard"), items) == ToLogin("/dashboard")
    ensures Settle(Resolve(Dashboard, "/dashboard"), items) == Resolve(Login, "/login?redirect=" + "/dashboard")
  {
  }

  /** Once a login has stored a non-empty token, opening the login page (even
      with a stale redirect) goes to the dashboard. */
  lemma LoginPageAfterLogin(items: Items, token: string, userText: string, redirect: string)
    requires token != ""
    ensures Guard(Resolve(Login, "/login?redirect=" + redirect), SaveSession(items, token, userText)) == ToDashboard
  {
  }

  /** After a login the transport sends exactly the stored token. */
  lemma BearerAfterLogin(headers: Headers, items: Items, token: string, userText: string)
    requires token != ""
    ensures var h := WithBearer(headers, SaveSession(items, token, userText));
            AuthorizationHeader in h && h[AuthorizationHeader] == "Bearer " + token
  {
  }

  /** Once the stored session is cleared (logout or 401): no stale credential is
      sent, every protected route redirects to login with its own path, and the
      login location the 401 handler pushes is let through. */
  lemma AfterSessionEnds(items: Items, headers: Headers, name: RouteName, fullPath: string, current: string)
    ensures WithBearer(headers, ClearSession(items)) == headers
    ensures RequiresAuth(name) ==> Guard(Resolve(name, fullPath), ClearSession(items)) == ToLogin(fullPath)
    ensures Guard(LocationTarget(Location(Login, Some(current))), ClearSession(items)) == Allow
  {
  }

  /** A profile request answered with 401: the transport clears storage and
      pushes the login route, then the store records the failure. The store's
      own token is left as it was, so `isAuthenticated` still holds while the
      guard, which reads storage, now redirects protected routes to login. */
  method ProfileRequestWithExpiredSession(auth: AuthStore, client: ApiClient, e: HttpError)
    requires client.storage == auth.storage && client.router != null
    requires IsUnauthorized(e) && auth.IsAuthenticated()
    modifies auth, auth.storage, client.router
    ensures auth.IsAuthenticated() && auth.token == old(auth.token) && auth.user == old(auth.user)
    ensures !HasToken(auth.storage.items) && !auth.InSync()
    ensures auth.storage.items == ClearSession(old(auth.storage.items))
    ensures auth.error == Some(ErrorText(e, FetchProfileFailed))
    ensures client.router.pushed ==
            old(client.router.pushed) + [Location(Login, Some(old(client.router.currentFullPath)))]
  {
    var result := client.OnResponse<Json>(Err(e));
    auth.FetchUserProfile(result);
  }
}
