/** The role gate of apps/crm/src/auth/role.ts: three guards in order
    (signed in, active, required role), each failing with an
    `AuthorizationError` carrying an HTTP status, over the session value the
    caller passes in. */
module RoleGate {
  import opened Common
  import opened UserSchema
  import opened AuthConfig

  /** The session `auth()` resolves to; `user` is None when it has no user. */
  datatype AuthSession = AuthSession(user: Option<Claims>)

  datatype AuthorizationError = AuthorizationError(message: string, status: int)

  const Unauthorized := AuthorizationError("Unauthorized", 401)
  const Inactive := AuthorizationError("User account is inactive", 403)
  const Forbidden := AuthorizationError("Forbidden", 403)

  /** `requireRole`: succeeds, returning the session unchanged, exactly for a
      signed-in user who is ACTIVE and has the required role; otherwise the
      first guard that fails decides the error, so an inactive user is told
      so whatever their role. */
  function RequireRole(session: Option<AuthSession>, requiredRole: Role): (r: Result<AuthSession, AuthorizationError>)
    ensures r.Ok? <==> (session.Some? && session.value.user.Some?
                        && session.value.user.value.status == Some(Active)
                        && session.value.user.value.role == Some(requiredRole))
    ensures r.Ok? ==> r.value == session.value
    ensures (session.None? || session.value.user.None?) ==> r == Err(Unauthorized)
    ensures session.Some? && session.value.user.Some? && session.value.user.value.status != Some(Active)
      ==> r == Err(Inactive)
    ensures (session.Some? && session.value.user.Some? && session.value.user.value.status == Some(Active)
             && session.value.user.value.role != Some(requiredRole)) ==> r == Err(Forbidden)
  {
    if session.None? || session.value.user.None? then Err(Unauthorized)
    else if session.value.user.value.status != Some(Active) then Err(Inactive)
    else if session.value.user.value.role != Some(requiredRole) then Err(Forbidden)
    else Ok(session.value)
  }

  /** `requireAdmin`: lets through exactly the active admins. */
  function RequireAdmin(session: Option<AuthSession>): (r: Result<AuthSession, AuthorizationError>)
    ensures r == RequireRole(session, Admin)
    ensures r.Ok? ==> r.value.user.Some? && r.value.user.value.role == Some(Admin)
  {
    RequireRole(session, Admin)
  }

  /** The gate only ever raises 401 (nobody signed in) or 403 (signed in
      but inactive or without the role). */
  lemma {:induction false} OnlyUnauthorizedOrForbidden(session: Option<AuthSession>, requiredRole: Role)
    ensures var r := RequireRole(session, requiredRole);
      r.Err? ==> ((r.error.status == 401 <==> (session.None? || session.value.user.None?))
                  && (r.error.status == 401 || r.error.status == 403))
  {
  }

  /** A session made by the callbacks right after a successful sign-in
      passes the gate exactly when the signed-in user has the required role. */
  lemma {:induction false} FreshSignInPassesIffRole(
    credentials: CredentialsRequest, lookup: string -> Option<Credentials.StoredUser>,
    compareFn: (string, string) -> bool, token: Claims, prior: Claims, requiredRole: Role)
    requires Authorize(credentials, lookup, compareFn).Some?
    ensures var u := Authorize(credentials, lookup, compareFn).value;
      var claims := SessionClaims(prior, JwtClaims(token, Some(SignInUserOf(u))));
      RequireRole(Some(AuthSession(Some(claims))), requiredRole).Ok? <==> u.role == requiredRole
  {
    SignInSessionCarriesIdentity(credentials, lookup, compareFn, token, prior);
  }
}
