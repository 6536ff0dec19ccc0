/** The credential authoriser of apps/crm/src/auth/credentials.ts: a chain
    of early returns over the one user record found for the given email. The
    user lookup and the hash comparison are injected functions. */
module Credentials {
  import opened Common
  import opened UserSchema

  /** The columns the lookup selects. */
  datatype StoredUser = StoredUser(id: string, email: string, passwordHash: Option<string>, role: Role, status: Status)

  /** The identity handed to the session layer; `emailVerified`, `name` and
      `image` are always null (None). */
  datatype AdapterUser = AdapterUser(
    id: string, email: string, role: Role, status: Status,
    emailVerified: Option<int>, name: Option<string>, image: Option<string>)

  datatype CredentialsInput = CredentialsInput(email: string, password: string)

  /** `credentialsSchema.safeParse`: a well-formed email and a non-empty
      password, both kept exactly as given. */
  function ParseCredentials(email: Value, password: Value): (r: Option<CredentialsInput>)
    ensures r.Some? <==> EmailOk(email) && PasswordOk(password)
    ensures r.Some? ==> r.value == CredentialsInput(email.s, password.s)
  {
    if EmailOk(email) && PasswordOk(password) then Some(CredentialsInput(email.s, password.s)) else None
  }

  /** `!user?.passwordHash` is false: a record with a non-empty hash. */
  predicate HasHash(u: StoredUser) {
    u.passwordHash.Some? && u.passwordHash.value != ""
  }

  /** The outcome of one authorisation, with the arguments `compareFn` was
      called with (None when it was not called). */
  datatype Attempt = Attempt(user: Option<AdapterUser>, compared: Option<(string, string)>)

  /** `authorizeWithCredentials`. */
  function AuthorizeWithCredentials(
    lookup: string -> Option<StoredUser>,
    compareFn: (string, string) -> bool,
    input: CredentialsInput): (r: Attempt)
    // an identity exactly for a found record with a hash that matches and an ACTIVE status
    ensures r.user.Some? <==>
      var u := lookup(input.email);
      u.Some? && HasHash(u.value) && compareFn(input.password, u.value.passwordHash.value)
      && u.value.status == Active
    // compareFn runs exactly when a record with a hash was found, on (password, hash)
    ensures r.compared.Some? <==> lookup(input.email).Some? && HasHash(lookup(input.email).value)
    ensures r.compared.Some? ==> r.compared.value == (input.password, lookup(input.email).value.passwordHash.value)
    // the identity copies the record and nulls the rest
    ensures r.user.Some? ==>
      var u := lookup(input.email).value;
      r.user.value == AdapterUser(u.id, u.email, u.role, u.status, None, None, None)
    ensures r.user.Some? ==> r.user.value.status == Active
  {
    var found := lookup(input.email);
    if found.None? || !HasHash(found.value) then Attempt(None, None)
    else
      var user := found.value;
      var hash := user.passwordHash.value;
      var isValid := compareFn(input.password, hash);
      if !isValid then Attempt(None, Some((input.password, hash)))
      else if user.status != Active then Attempt(None, Some((input.password, hash)))
      else Attempt(Some(AdapterUser(user.id, user.email, user.role, user.status, None, None, None)),
                   Some((input.password, hash)))
  }

  /** The email is looked up exactly as given: two lookups that agree on that
      one key give the same outcome, whatever they do on other spellings of it. */
  lemma {:induction false} OnlyTheExactEmailMatters(
    lookup1: string -> Option<StoredUser>, lookup2: string -> Option<StoredUser>,
    compareFn: (string, string) -> bool, input: CredentialsInput)
    requires lookup1(input.email) == lookup2(input.email)
    ensures AuthorizeWithCredentials(lookup1, compareFn, input) == AuthorizeWithCredentials(lookup2, compareFn, input)
  {
  }

  /** A deactivated user whose password matches is still compared, and still
      refused. */
  lemma {:induction false} DeactivatedUserComparedThenRefused(
    lookup: string -> Option<StoredUser>, compareFn: (string, string) -> bool, input: CredentialsInput)
    requires lookup(input.email).Some? && HasHash(lookup(input.email).value)
    requires lookup(input.email).value.status == Deactivated
    ensures AuthorizeWithCredentials(lookup, compareFn, input).compared.Some?
    ensures AuthorizeWithCredentials(lookup, compareFn, input).user.None?
  {
  }
}
