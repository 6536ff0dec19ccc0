/** The route middleware of apps/crm/middleware.ts: plain prefix tests on
    the request path, then the token's presence, status and role decide
    between letting the request through, redirecting it, or refusing it. */
module Middleware {
  import opened Common
  import opened UserSchema
  import opened AuthConfig

  const PublicPaths := ["/login", "/api/auth", "/_next", "/favicon", "/assets", "/public"]
  const AdminPathPrefixes := ["/app/api/admin", "/app/users"]

  datatype NextUrl = NextUrl(pathname: string, search: string)

  datatype Response =
    | Next
    | Redirect(path: string, params: seq<(string, string)>)
    | JsonError(status: int, error: string)

  predicate IsPublicPath(pathname: string) { StartsWithAny(pathname, PublicPaths) }
  predicate IsAdminPath(pathname: string) { StartsWithAny(pathname, AdminPathPrefixes) }

  /** The redirect to the login page for a visitor without a token. */
  function LoginRedirect(url: NextUrl): Response {
    var callbackUrl := url.pathname + url.search;
    if callbackUrl != "" then Redirect("/login", [("callbackUrl", callbackUrl)]) else Redirect("/login", [])
  }

  const DeactivatedRedirect := Redirect("/login", [("reason", "deactivated")])

  /** `middleware`: a request goes through exactly when its path is public,
      or its token is ACTIVE and, on an admin path, belongs to an ADMIN. */
  function Middleware(url: NextUrl, token: Option<Claims>): (r: Response)
    ensures r.Next? <==> (IsPublicPath(url.pathname)
                          || (token.Some? && token.value.status == Some(Active)
                              && (!IsAdminPath(url.pathname) || token.value.role == Some(Admin))))
    ensures r.JsonError? ==> r == JsonError(403, "Forbidden") && StartsWith(url.pathname, "/app/api")
  {
    var pathname := url.pathname;
    if IsPublicPath(pathname) then Next
    else if token.None? && StartsWith(pathname, "/app") then LoginRedirect(url)
    else if token.None? || token.value.status != Some(Active) then DeactivatedRedirect
    else if IsAdminPath(pathname) && token.value.role != Some(Admin) then
      if StartsWith(pathname, "/app/api") then JsonError(403, "Forbidden") else Redirect("/app", [])
    else Next
  }

  /** A public path passes without the token being consulted. */
  lemma {:induction false} PublicIgnoresToken(url: NextUrl, token1: Option<Claims>, token2: Option<Claims>)
    requires IsPublicPath(url.pathname)
    ensures Middleware(url, token1) == Middleware(url, token2) == Next
  {
  }

  /** Without a token, a private path under "/app" goes to the login page
      with the path and query as `callbackUrl`; any other private path goes
      to the login page flagged as deactivated. */
  lemma {:induction false} NoTokenRedirects(url: NextUrl)
    requires !IsPublicPath(url.pathname)
    ensures StartsWith(url.pathname, "/app") ==>
      Middleware(url, None) == Redirect("/login", [("callbackUrl", url.pathname + url.search)])
    ensures !StartsWith(url.pathname, "/app") ==> Middleware(url, None) == DeactivatedRedirect
  {
    if StartsWith(url.pathname, "/app") {
      assert |url.pathname + url.search| >= 4;
    }
  }

  /** A token whose status is anything but ACTIVE (missing included) is sent
      to the login page flagged as deactivated, on every private path. */
  lemma {:induction false} InactiveTokenRedirects(url: NextUrl, token: Claims)
    requires !IsPublicPath(url.pathname) && token.status != Some(Active)
    ensures Middleware(url, Some(token)) == DeactivatedRedirect
  {
  }

  /** An active non-admin on an admin path gets a JSON 403 under "/app/api"
      and a redirect to "/app" elsewhere. */
  lemma {:induction false} NonAdminOnAdminPath(url: NextUrl, token: Claims)
    requires !IsPublicPath(url.pathname) && IsAdminPath(url.pathname)
    requires token.status == Some(Active) && token.role != Some(Admin)
    ensures StartsWith(url.pathname, "/app/api") ==> Middleware(url, Some(token)) == JsonError(403, "Forbidden")
    ensures !StartsWith(url.pathname, "/app/api") ==> Middleware(url, Some(token)) == Redirect("/app", [])
  {
  }

  /** Matching is a bare prefix test: "/loginx" counts as public and
      "/app/usersx" as an admin path. */
  lemma PrefixMatchingIsLiteral()
    ensures IsPublicPath("/loginx")
    ensures IsAdminPath("/app/usersx")
  {
    assert StartsWith("/loginx", PublicPaths[0]);
    assert StartsWith("/app/usersx", AdminPathPrefixes[1]);
  }

  /** The admin API at "/api/admin/users" matches neither list, so any
      ACTIVE token, whatever its role, passes the middleware there; only the
      handler's own admin check guards it. */
  lemma AdminApiNotGatedByRole(token: Claims)
    requires token.status == Some(Active)
    ensures Middleware(NextUrl("/api/admin/users", ""), Some(token)) == Next
  {
    var p := "/api/admin/users";
    forall i | 0 <= i < |PublicPaths| ensures !StartsWith(p, PublicPaths[i]) {
      if i == 0 { assert p[1] != PublicPaths[0][1]; }
      else if i == 1 { assert p[6] != PublicPaths[1][6]; }
      else if i == 2 { assert p[1] != PublicPaths[2][1]; }
      else if i == 3 { assert p[1] != PublicPaths[3][1]; }
      else if i == 4 { assert p[2] != PublicPaths[4][2]; }
      else { assert p[1] != PublicPaths[5][1]; }
    }
    forall i | 0 <= i < |AdminPathPrefixes| ensures !StartsWith(p, AdminPathPrefixes[i]) {
      if i == 0 { assert p[3] != AdminPathPrefixes[0][3]; }
      else { assert p[3] != AdminPathPrefixes[1][3]; }
    }
  }

  /** The site root without a token is not under "/app", so it is sent to
      the login page flagged as deactivated rather than with a callback. */
  lemma RootWithoutTokenLooksDeactivated()
    ensures Middleware(NextUrl("/", ""), None) == DeactivatedRedirect
  {
    assert !StartsWith("/", "/app");
    forall i | 0 <= i < |PublicPaths| ensures !StartsWith("/", PublicPaths[i]) {
      assert |PublicPaths[i]| > 1;
    }
  }
}
