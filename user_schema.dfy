/** The role and status enumerations and the create/update input schemas of
    packages/shared/auth/user.ts. */
module UserSchema {
  import opened Common

  datatype Role = Admin | Founder | TeamMember
  datatype Status = Active | Deactivated

  const RoleNames := ["ADMIN", "FOUNDER", "TEAM_MEMBER"]
  const StatusNames := ["ACTIVE", "DEACTIVATED"]

  function RoleName(r: Role): string {
    match r
    case Admin => "ADMIN"
    case Founder => "FOUNDER"
    case TeamMember => "TEAM_MEMBER"
  }

  function StatusName(s: Status): string {
    match s
    case Active => "ACTIVE"
    case Deactivated => "DEACTIVATED"
  }

  /** `userRoleSchema`: accepts exactly the three role names, and the role
      it yields is named by the accepted text. */
  function ParseRole(s: string): (r: Option<Role>)
    ensures r.Some? <==> s in RoleNames
    ensures r.Some? ==> RoleName(r.value) == s
  {
    if s == "ADMIN" then Some(Admin)
    else if s == "FOUNDER" then Some(Founder)
    else if s == "TEAM_MEMBER" then Some(TeamMember)
    else None
  }

  /** `userStatusSchema`: accepts exactly the two status names. */
  function ParseStatus(s: string): (r: Option<Status>)
    ensures r.Some? <==> s in StatusNames
    ensures r.Some? ==> StatusName(r.value) == s
  {
    if s == "ACTIVE" then Some(Active)
    else if s == "DEACTIVATED" then Some(Deactivated)
    else None
  }

  /** Printing a role or status and parsing it back gives it back. */
  lemma {:induction false} NamesRoundTrip(r: Role, s: Status)
    ensures ParseRole(RoleName(r)) == Some(r)
    ensures ParseStatus(StatusName(s)) == Some(s)
  {
    match r
    case Admin =>
    case Founder =>
      assert "FOUNDER"[0] != "ADMIN"[0];
    case TeamMember =>
      assert "TEAM_MEMBER"[0] != "ADMIN"[0] && "TEAM_MEMBER"[0] != "FOUNDER"[0];
    match s
    case Active =>
    case Deactivated =>
      assert "DEACTIVATED"[0] != "ACTIVE"[0];
  }

  /** An enum schema applied to a raw value: only a string can match. */
  function RoleOf(v: Value): Option<Role> {
    if v.Str? then ParseRole(v.s) else None
  }

  function StatusOf(v: Value): Option<Status> {
    if v.Str? then ParseStatus(v.s) else None
  }

  /** The key under which a failure of the body as a whole is reported: a
      body that is JSON but not an object fails at the empty path, which
      zod lists among the form errors rather than under any key. */
  const WholeBody := ""

  /** The body of a create request, before validation: an object's three
      keys, or JSON that is not an object (null, an array, a string, a
      number or a boolean). */
  datatype CreateUserRequest =
    | CreateUserRequest(email: Value, password: Value, role: Value)
    | CreateNotAnObject

  datatype CreateUserInput = CreateUserInput(email: string, password: string, role: Role)

  predicate EmailOk(v: Value) { v.Str? && WellFormedEmail(v.s) }
  predicate PasswordOk(v: Value) { v.Str? && |v.s| >= 1 }

  /** `createUserSchema.parse`: accepts exactly a well-formed email, a
      non-empty password and a known role, keeping them as given (no trimming,
      no case folding); otherwise reports every failing key, in schema order,
      or the body as a whole when it is not an object. */
  function ParseCreateUser(req: CreateUserRequest): (r: Result<CreateUserInput, seq<string>>)
    ensures r.Ok? <==>
      req.CreateUserRequest? && EmailOk(req.email) && PasswordOk(req.password) && RoleOf(req.role).Some?
    ensures r.Ok? ==> r.value == CreateUserInput(req.email.s, req.password.s, RoleOf(req.role).value)
    ensures req.CreateNotAnObject? ==> r == Err([WholeBody])
    ensures r.Err? ==> r.error != []
    ensures r.Err? && req.CreateUserRequest? ==> ("email" in r.error <==> !EmailOk(req.email))
    ensures r.Err? && req.CreateUserRequest? ==> ("password" in r.error <==> !PasswordOk(req.password))
    ensures r.Err? && req.CreateUserRequest? ==> ("role" in r.error <==> RoleOf(req.role).None?)
  {
    if req.CreateNotAnObject? then Err([WholeBody]) else
    var failed :=
      (if EmailOk(req.email) then [] else ["email"])
      + (if PasswordOk(req.password) then [] else ["password"])
      + (if RoleOf(req.role).Some? then [] else ["role"]);
    if failed == [] then Ok(CreateUserInput(req.email.s, req.password.s, RoleOf(req.role).value))
    else Err(failed)
  }

  /** The body of an update request, before validation: an object's two
      keys (`Undefined` when absent), or JSON that is not an object. */
  datatype UpdateUserRequest =
    | UpdateUserRequest(role: Value, status: Value)
    | UpdateNotAnObject

  datatype UpdateUserInput = UpdateUserInput(role: Option<Role>, status: Option<Status>)

  predicate OptionalRoleOk(v: Value) { v.Undefined? || RoleOf(v).Some? }
  predicate OptionalStatusOk(v: Value) { v.Undefined? || StatusOf(v).Some? }

  /** `updateUserSchema.parse`: each key may be missing; a present key must
      name a member of its enumeration (null is not missing); a body that
      is not an object fails as a whole. */
  function ParseUpdateUser(req: UpdateUserRequest): (r: Result<UpdateUserInput, seq<string>>)
    ensures r.Ok? <==> req.UpdateUserRequest? && OptionalRoleOk(req.role) && OptionalStatusOk(req.status)
    ensures r.Ok? ==> r.value.role == RoleOf(req.role) && r.value.status == StatusOf(req.status)
    ensures r.Ok? ==> (r.value.role.None? <==> req.role.Undefined?)
    ensures r.Ok? ==> (r.value.status.None? <==> req.status.Undefined?)
    ensures req.UpdateNotAnObject? ==> r == Err([WholeBody])
    ensures r.Err? ==> r.error != []
    ensures r.Err? && req.UpdateUserRequest? ==> ("role" in r.error <==> !OptionalRoleOk(req.role))
    ensures r.Err? && req.UpdateUserRequest? ==> ("status" in r.error <==> !OptionalStatusOk(req.status))
  {
    if req.UpdateNotAnObject? then Err([WholeBody]) else
    var failed :=
      (if OptionalRoleOk(req.role) then [] else ["role"])
      + (if OptionalStatusOk(req.status) then [] else ["status"]);
    if failed == [] then Ok(UpdateUserInput(RoleOf(req.role), StatusOf(req.status)))
    else Err(failed)
  }

  /** The empty update body is accepted, with nothing to change. */
  lemma EmptyUpdateAccepted()
    ensures ParseUpdateUser(UpdateUserRequest(Undefined, Undefined)) == Ok(UpdateUserInput(None, None))
  {
  }

  /** `isAdmin`: null and undefined (None) are not admin. */
  function IsAdmin(role: Option<string>): bool {
    role == Some("ADMIN")
  }

  /** `isAdmin` holds of exactly one role's name. */
  lemma {:induction false} IsAdminOnlyForAdmin(r: Role)
    ensures IsAdmin(Some(RoleName(r))) <==> r == Admin
    ensures !IsAdmin(None)
  {
    NamesRoundTrip(r, Active);
  }
}
