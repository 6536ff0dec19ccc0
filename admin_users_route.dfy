/** The admin users API of apps/crm/src/app/api/admin/users/route.ts: each
    handler runs the admin gate and one service call, and its `catch` turns
    what was thrown into a JSON response with a status. */
module AdminUsersRoute {
  import opened Common
  import opened UserSchema
  import opened RoleGate
  import opened Users
  import opened Password

  datatype Body =
    | UsersBody(users: seq<UserSummary>)
    | UserBody(user: UserSummary)
    | ErrorMessage(error: string)
    | ErrorFields(fields: seq<string>)

  datatype JsonResponse = JsonResponse(status: int, body: Body)

  const ListFailed := JsonResponse(500, ErrorMessage("Unable to list users"))
  const CreateFailed := JsonResponse(500, ErrorMessage("Unable to create user"))

  function AuthorizationFailure(e: AuthorizationError): JsonResponse {
    JsonResponse(e.status, ErrorMessage(e.message))
  }

  /** `GET`: the listing with 200 for an active admin; the gate's own message
      and status when it refuses; 500 when the listing itself fails.
      `listing` is what `listUsers` yields, `Err` when the store fails. */
  function Get(session: Option<AuthSession>, listing: Result<seq<UserSummary>, string>): (r: JsonResponse)
    ensures r.status == 200 <==> RequireAdmin(session).Ok? && listing.Ok?
    ensures r.status == 200 ==> r.body == UsersBody(listing.value)
    ensures RequireAdmin(session).Err? ==> r == AuthorizationFailure(RequireAdmin(session).error)
    ensures RequireAdmin(session).Ok? && listing.Err? ==> r == ListFailed
  {
    match RequireAdmin(session)
    case Err(e) => AuthorizationFailure(e)
    case Ok(_) =>
      match listing
      case Ok(users) => JsonResponse(200, UsersBody(users))
      case Err(_) => ListFailed
  }

  /** The `catch` of `POST` for what `createUser` throws: a schema failure is
      400 with the failing fields, a duplicate email is 409 with its message,
      and everything else, the password policy's `Error` included, is 500. */
  function CreateFailure(e: ServiceError): (r: JsonResponse)
    ensures r.status == 400 <==> e.ZodError?
    ensures e.ZodError? ==> r.body == ErrorFields(e.fields)
    ensures r.status == 409 <==> e.DuplicateEmailError?
    ensures e.DuplicateEmailError? ==> r.body == ErrorMessage(DuplicateEmailMessage)
    ensures !e.ZodError? && !e.DuplicateEmailError? ==> r == CreateFailed
  {
    match e
    case ZodError(fields) => JsonResponse(400, ErrorFields(fields))
    case DuplicateEmailError => JsonResponse(ErrorStatus(e).value, ErrorMessage(DuplicateEmailMessage))
    case _ => CreateFailed
  }

  /** A failing password policy does not reach the client as a validation
      error: it is answered 500 like any unexpected failure. */
  lemma WeakPasswordIsServerError(message: string)
    ensures CreateFailure(PlainError(message)) == CreateFailed
  {
  }

  /** `POST`: for an active admin with a parsable body, creates the user with
      the admin's id as actor and answers 201 with it; the gate's refusal,
      a body that is not JSON (`None`) and every failure of `createUser`
      are answered as the handlers' `catch` says, and leave the directory
      as it was. */
  method Post(
    directory: UserDirectory, session: Option<AuthSession>, body: Option<CreateUserRequest>,
    newId: string, now: int, hash: string -> string)
    returns (r: JsonResponse)
    requires directory.Valid() && newId !in directory.users
    modifies directory
    ensures directory.Valid()
    ensures RequireAdmin(session).Err? ==> r == AuthorizationFailure(RequireAdmin(session).error)
    ensures RequireAdmin(session).Ok? && body.None? ==> r == CreateFailed
    ensures RequireAdmin(session).Ok? && body.Some? && ParseCreateUser(body.value).Err?
      ==> r == JsonResponse(400, ErrorFields(ParseCreateUser(body.value).error))
    ensures RequireAdmin(session).Ok? && body == Some(CreateNotAnObject)
      ==> r == JsonResponse(400, ErrorFields([WholeBody]))
    ensures RequireAdmin(session).Ok? && body.Some? && ParseCreateUser(body.value).Ok?
      && EmailTaken(old(directory.users), ParseCreateUser(body.value).value.email)
      ==> r == JsonResponse(409, ErrorMessage(DuplicateEmailMessage))
    ensures RequireAdmin(session).Ok? && body.Some? && ParseCreateUser(body.value).Ok?
      && !EmailTaken(old(directory.users), ParseCreateUser(body.value).value.email)
      && !Compliant(ParseCreateUser(body.value).value.password)
      ==> r == CreateFailed
    ensures r.status == 201 <==>
      (RequireAdmin(session).Ok? && body.Some? && ParseCreateUser(body.value).Ok?
       && !EmailTaken(old(directory.users), ParseCreateUser(body.value).value.email)
       && Compliant(ParseCreateUser(body.value).value.password))
    ensures r.status == 201 ==> newId in directory.users && r.body == UserBody(Select(directory.users[newId]))
    ensures r.status == 201 ==> (|directory.auditLog| > 0 && RequireAdmin(session).Ok?
                                 && directory.auditLog[|directory.auditLog| - 1].actorId == session.value.user.value.id)
    ensures r.status == 201 ==>
      RequireAdmin(session).Ok? && body.Some? && ParseCreateUser(body.value).Ok? &&
      var p := ParseCreateUser(body.value).value;
      var rec := UserRecord(newId, p.email, hash(p.password), p.role, Active, now, now);
      && directory.users == old(directory.users)[newId := rec]
      && directory.auditLog == old(directory.auditLog)
           + [AuditEvent("USER_CREATED", "User", newId, session.value.user.value.id,
                         Some(map["email" := p.email, "role" := RoleName(p.role)]))]
    ensures r.status != 201 ==> directory.users == old(directory.users) && directory.auditLog == old(directory.auditLog)
  {
    var gate := RequireAdmin(session);
    if gate.Err? {
      return AuthorizationFailure(gate.error);
    }
    if body.None? {
      return CreateFailed;
    }
    var created := directory.CreateUser(body.value, gate.value.user.value.id, newId, now, hash);
    if created.Ok? {
      r := JsonResponse(201, UserBody(created.value));
    } else {
      r := CreateFailure(created.error);
    }
  }
}
