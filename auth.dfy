/**
 * The token-cookie helpers of `src/lib/auth.ts`: the routing decision of
 * `adminAuthMiddleware`, `isAuthenticated` and `getCurrentAdmin`. The
 * `admin_token` cookie is the parameter `token` (`None` when absent);
 * any non-empty value is accepted.
 */
module Auth {
  import opened Common

  datatype Decision = Continue | Unauthorized | RedirectToLogin(location: string)

  datatype AdminUser = AdminUser(username: string, role: string)

  predicate GuardedApi(path: string) {
    StartsWith(path, "/api/admin") && !StartsWith(path, "/api/admin/login")
  }

  predicate ProtectedPage(path: string) {
    StartsWith(path, "/admin/(protected)")
  }

  /** `adminAuthMiddleware(request)`: `Continue` is its `undefined`. */
  function AdminAuthMiddleware(path: string, token: Option<string>): (d: Decision)
    ensures d == Unauthorized <==> GuardedApi(path) && !Present(token)
    ensures d.RedirectToLogin? <==> !GuardedApi(path) && ProtectedPage(path) && !Present(token)
    ensures d.RedirectToLogin? ==> d.location == "/admin/login"
    ensures Present(token) ==> d == Continue
  {
    if GuardedApi(path) && !Present(token) then Unauthorized
    else if ProtectedPage(path) && !Present(token) then RedirectToLogin("/admin/login")
    else Continue
  }

  /** `isAuthenticated()`. */
  function IsAuthenticated(token: Option<string>): (b: bool)
    ensures b <==> token.Some? && token.value != ""
  {
    Present(token)
  }

  /** `getCurrentAdmin()`: the fixed placeholder when a token exists. */
  function GetCurrentAdmin(token: Option<string>): (r: Option<AdminUser>)
    ensures r.Some? <==> IsAuthenticated(token)
    ensures r.Some? ==> r.value == AdminUser("admin", "admin")
  {
    if !Present(token) then None else Some(AdminUser("admin", "admin"))
  }

  /**
   * `isAuthenticated` and the middleware accept the same cookies: on a
   * guarded API path or a protected page the request continues exactly
   * when `isAuthenticated` holds, and `getCurrentAdmin` then names a user.
   */
  lemma MiddlewareAgreesWithIsAuthenticated(path: string, token: Option<string>)
    requires GuardedApi(path) || ProtectedPage(path)
    ensures AdminAuthMiddleware(path, token) == Continue <==> IsAuthenticated(token)
    ensures AdminAuthMiddleware(path, token) == Continue <==> GetCurrentAdmin(token).Some?
  {
  }

  lemma PrefixOfPrefix(s: string, long: string, short: string)
    requires StartsWith(long, short)
    ensures StartsWith(s, long) ==> StartsWith(s, short)
  {
    if StartsWith(s, long) {
      assert s[..|short|] == long[..|short|];
    }
  }

  /** Paths outside both guarded areas always continue, whatever the cookie. */
  lemma UnguardedContinues(path: string, token: Option<string>)
    requires !StartsWith(path, "/api/admin") && !StartsWith(path, "/admin/")
    ensures AdminAuthMiddleware(path, token) == Continue
  {
    assert StartsWith("/admin/(protected)", "/admin/");
    PrefixOfPrefix(path, "/admin/(protected)", "/admin/");
  }

  /** The login route is never guarded, so a visitor without a token can reach it. */
  lemma LoginReachable(path: string, token: Option<string>)
    requires StartsWith(path, "/api/admin/login")
    ensures AdminAuthMiddleware(path, token) == Continue
  {
    assert path[2] == "/api/admin/login"[2] == 'p';
    assert "/admin/(protected)"[2] == 'd';
  }
}
