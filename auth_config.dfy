/** The authentication configuration of apps/crm/src/auth.ts: the
    credentials `authorize` wrapper, the session lifetime, and the `jwt` and
    `session` callbacks, which copy the identity's claims field by field
    into the token and then into the session's user. */
module AuthConfig {
  import opened Common
  import opened UserSchema
  import opened Credentials

  /** Session lifetime in seconds: seven days. */
  const SessionMaxAge: nat := 60 * 60 * 24 * 7

  /** The claims a token or a session user carries; a missing claim is None. */
  datatype Claims = Claims(id: Option<string>, email: Option<string>, role: Option<Role>, status: Option<Status>)

  /** The `user` handed to the `jwt` callback at sign-in. */
  datatype SignInUser = SignInUser(id: string, email: Option<string>, role: Option<Role>, status: Option<Status>)

  /** What the credentials provider hands to the `jwt` callback. */
  function SignInUserOf(u: AdapterUser): SignInUser {
    SignInUser(u.id, Some(u.email), Some(u.role), Some(u.status))
  }

  datatype CredentialsRequest = CredentialsRequest(email: Value, password: Value)

  /** The provider's `authorize`: null when the schema rejects the input,
      otherwise exactly what `authorizeWithCredentials` returns. */
  function Authorize(
    credentials: CredentialsRequest,
    lookup: string -> Option<StoredUser>,
    compareFn: (string, string) -> bool): (r: Option<AdapterUser>)
    ensures ParseCredentials(credentials.email, credentials.password).None? ==> r.None?
    ensures ParseCredentials(credentials.email, credentials.password).Some? ==>
      r == AuthorizeWithCredentials(lookup, compareFn, ParseCredentials(credentials.email, credentials.password).value).user
    ensures r.Some? ==> r.value.status == Active
  {
    var parsed := ParseCredentials(credentials.email, credentials.password);
    if parsed.None? then None
    else AuthorizeWithCredentials(lookup, compareFn, parsed.value).user
  }

  /** The token after the `jwt` callback: unchanged without a user; with one,
      the id is the user's and every other claim is the user's when defined
      and the token's previous one otherwise. */
  function JwtClaims(token: Claims, user: Option<SignInUser>): (r: Claims)
    ensures user.None? ==> r == token
    ensures user.Some? ==> r.id == Some(user.value.id)
    ensures user.Some? && user.value.email.Some? ==> r.email == user.value.email
    ensures user.Some? && user.value.email.None? ==> r.email == token.email
    ensures user.Some? && user.value.role.Some? ==> r.role == user.value.role
    ensures user.Some? && user.value.role.None? ==> r.role == token.role
    ensures user.Some? && user.value.status.Some? ==> r.status == user.value.status
    ensures user.Some? && user.value.status.None? ==> r.status == token.status
  {
    match user
    case None => token
    case Some(u) => Claims(Some(u.id), u.email.OrElse(token.email), u.role.OrElse(token.role), u.status.OrElse(token.status))
  }

  /** The session user after the `session` callback: each claim is the
      token's when present and the session's own otherwise, and the email
      falls back finally to "", so it is always present. */
  function SessionClaims(session: Claims, token: Claims): (r: Claims)
    ensures r.email.Some?
    ensures r.id == (if token.id.Some? then token.id else session.id)
    ensures r.email.value == (if token.email.Some? then token.email.value
                              else if session.email.Some? then session.email.value else "")
    ensures r.role == (if token.role.Some? then token.role else session.role)
    ensures r.status == (if token.status.Some? then token.status else session.status)
  {
    Claims(token.id.OrElse(session.id),
           token.email.OrElse(session.email).OrElse(Some("")),
           token.role.OrElse(session.role),
           token.status.OrElse(session.status))
  }

  /** A session built right after a successful sign-in carries exactly the
      authorised identity's claims, whatever the token and session held
      before, and so its status is ACTIVE. */
  lemma {:induction false} SignInSessionCarriesIdentity(
    credentials: CredentialsRequest, lookup: string -> Option<StoredUser>,
    compareFn: (string, string) -> bool, token: Claims, session: Claims)
    requires Authorize(credentials, lookup, compareFn).Some?
    ensures var u := Authorize(credentials, lookup, compareFn).value;
      SessionClaims(session, JwtClaims(token, Some(SignInUserOf(u))))
        == Claims(Some(u.id), Some(u.email), Some(u.role), Some(Active))
  {
  }

  /** The JWT as a mutable object. */
  class Token {
    var id: Option<string>
    var email: Option<string>
    var role: Option<Role>
    var status: Option<Status>

    function View(): Claims reads this {
      Claims(id, email, role, status)
    }

    constructor (c: Claims)
      ensures View() == c
    {
      id, email, role, status := c.id, c.email, c.role, c.status;
    }
  }

  /** `session.user` as a mutable object. */
  class SessionUser {
    var id: Option<string>
    var email: Option<string>
    var role: Option<Role>
    var status: Option<Status>

    function View(): Claims reads this {
      Claims(id, email, role, status)
    }

    constructor (c: Claims)
      ensures View() == c
    {
      id, email, role, status := c.id, c.email, c.role, c.status;
    }
  }

  class Session {
    var user: SessionUser?

    constructor (user: SessionUser?)
      ensures this.user == user
    {
      this.user := user;
    }
  }

  /** The `jwt` callback: assigns the token's fields in place and returns it. */
  method JwtCallback(token: Token, user: Option<SignInUser>) returns (r: Token)
    modifies token
    ensures r == token
    ensures token.View() == JwtClaims(old(token.View()), user)
  {
    if user.Some? {
      token.id := Some(user.value.id);
      token.email := user.value.email.OrElse(token.email);
      token.role := user.value.role.OrElse(token.role);
      token.status := user.value.status.OrElse(token.status);
    }
    return token;
  }

  /** The `session` callback: when the session has a user, assigns that
      user's fields in place from the token; returns the session. */
  method SessionCallback(session: Session, token: Token) returns (r: Session)
    modifies session.user
    ensures r == session && session.user == old(session.user)
    ensures session.user != null ==> session.user.View() == SessionClaims(old(session.user.View()), token.View())
    ensures unchanged(token)
  {
    var u := session.user;
    if u != null {
      u.id := token.id.OrElse(u.id);
      u.email := token.email.OrElse(u.email).OrElse(Some(""));
      u.role := token.role.OrElse(u.role);
      u.status := token.status.OrElse(u.status);
    }
    return session;
  }
}
