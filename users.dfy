/** The user directory service of apps/crm/src/lib/users.ts: the user table
    and the audit log as the state of one object, whose operations validate
    their input, check the table, change one record and append one audit
    event. Ids, clocks, bcrypt and the random source are parameters. */
module Users {
  import opened Common
  import opened UserSchema
  import opened Password
  import opened TemporaryPassword

  /** A row of the user table. */
  datatype UserRecord = UserRecord(
    id: string, email: string, passwordHash: string, role: Role, status: Status,
    createdAt: int, updatedAt: int)

  /** The columns `USER_SELECT` picks: every column but the password hash. */
  datatype UserSummary = UserSummary(
    id: string, email: string, role: Role, status: Status, createdAt: int, updatedAt: int)

  function Select(u: UserRecord): UserSummary {
    UserSummary(u.id, u.email, u.role, u.status, u.createdAt, u.updatedAt)
  }

  /** A row of the audit log, as `recordAuditEvent` writes it. */
  datatype AuditEvent = AuditEvent(
    action: string, entityType: string, entityId: string, actorId: Option<string>,
    metadata: Option<map<string, string>>)

  /** An error the store raised during an update, with the `code` it
      carried, if any. */
  datatype StoreFault = StoreFault(code: Option<string>)

  /** `isRecordNotFoundError`: the store's code for "no row matched". */
  predicate IsRecordNotFound(f: StoreFault) {
    f.code == Some("P2025")
  }

  /** What the service throws: a schema failure with the failing keys, the
      two domain errors, a plain `Error` with its message, or a store error
      passed on as it was raised. */
  datatype ServiceError =
    | ZodError(fields: seq<string>)
    | DuplicateEmailError
    | UserNotFoundError
    | PlainError(message: string)
    | StoreFailure(fault: StoreFault)

  /** The `catch` around an update: a missing row becomes
      `UserNotFoundError`, every other store error is re-raised unchanged. */
  function TranslateFault(f: StoreFault): (e: ServiceError)
    ensures e == UserNotFoundError <==> IsRecordNotFound(f)
    ensures e.StoreFailure? <==> !IsRecordNotFound(f)
    ensures e.StoreFailure? ==> e.fault == f
  {
    if IsRecordNotFound(f) then UserNotFoundError else StoreFailure(f)
  }

  /** The error an update of `userId` ends in: the store reports a missing
      row with its not-found code, and may fail with `fault` otherwise. */
  function UpdateFailure(users: map<string, UserRecord>, userId: string, fault: Option<StoreFault>): (e: Option<ServiceError>)
    ensures userId !in users ==> e == Some(UserNotFoundError)
    ensures e.None? <==> userId in users && fault.None?
    ensures userId in users && fault.Some? ==> e == Some(TranslateFault(fault.value))
  {
    if userId !in users then Some(TranslateFault(StoreFault(Some("P2025"))))
    else if fault.Some? then Some(TranslateFault(fault.value))
    else None
  }

  const DuplicateEmailMessage := "A user with this email already exists."
  const UserNotFoundMessage := "User not found."
  const NoUpdatesMessage := "No updates provided."

  /** The HTTP status an error class carries (a plain `Error` and a schema
      failure carry none). */
  function ErrorStatus(e: ServiceError): Option<int> {
    match e
    case DuplicateEmailError => Some(409)
    case UserNotFoundError => Some(404)
    case _ => None
  }

  predicate EmailTaken(users: map<string, UserRecord>, email: string) {
    exists id :: id in users && users[id].email == email
  }

  /** Among the ids `ks`, one whose record was created no earlier than any
      other's. */
  lemma {:induction false} NewestExists(users: map<string, UserRecord>, ks: set<string>)
    requires ks != {} && ks <= users.Keys
    ensures exists id :: id in ks && forall other :: other in ks ==> users[other].createdAt <= users[id].createdAt
    decreases ks
  {
    var k :| k in ks;
    var rest := ks - {k};
    if rest == {} {
      assert forall other :: other in ks ==> other == k || other in rest;
    } else {
      NewestExists(users, rest);
      var m :| m in rest && forall other :: other in rest ==> users[other].createdAt <= users[m].createdAt;
      if users[k].createdAt <= users[m].createdAt {
        assert forall other :: other in ks ==> other == k || other in rest;
      } else {
        assert forall other :: other in ks ==> other == k || other in rest;
      }
    }
  }

  /** The ids `ks` ordered newest first: each once, ties in any order. */
  ghost function NewestFirst(users: map<string, UserRecord>, ks: set<string>): (r: seq<string>)
    requires ks <= users.Keys
    ensures |r| == |ks|
    ensures forall id :: id in r <==> id in ks
    ensures forall i, j :: 0 <= i < j < |r| ==> users[r[i]].createdAt >= users[r[j]].createdAt
    decreases ks
  {
    if ks == {} then []
    else
      NewestExists(users, ks);
      var id :| id in ks && forall other :: other in ks ==> users[other].createdAt <= users[id].createdAt;
      var tail := NewestFirst(users, ks - {id});
      assert forall i :: 0 <= i < |tail| ==> tail[i] in ks;
      [id] + tail
  }

  /** The summaries of the records of `ids`, in that order. */
  function Summaries(users: map<string, UserRecord>, ids: seq<string>): (r: seq<UserSummary>)
    requires forall i :: 0 <= i < |ids| ==> ids[i] in users
    ensures |r| == |ids|
    ensures forall i :: 0 <= i < |r| ==> r[i] == Select(users[ids[i]])
  {
    if ids == [] then [] else [Select(users[ids[0]])] + Summaries(users, ids[1..])
  }

  /** `listUsers`: every record's summary, newest first. The store orders
      by `createdAt` and leaves ties in no particular order, so the model
      picks any newest record at each step. */
  ghost function ListUsers(users: map<string, UserRecord>): (r: seq<UserSummary>)
    ensures |r| == |users.Keys|
    ensures forall i, j :: 0 <= i < j < |r| ==> r[i].createdAt >= r[j].createdAt
    ensures forall id :: id in users ==> Select(users[id]) in r
  {
    ListingFacts(users);
    Summaries(users, NewestFirst(users, users.Keys))
  }

  /** The facts `ListUsers` promises, about the summaries of the ids
      ordered newest first. */
  lemma ListingFacts(users: map<string, UserRecord>)
    ensures var ids := NewestFirst(users, users.Keys);
      forall i :: 0 <= i < |ids| ==> ids[i] in users
    ensures var r := Summaries(users, NewestFirst(users, users.Keys));
      && |r| == |users.Keys|
      && (forall i, j :: 0 <= i < j < |r| ==> r[i].createdAt >= r[j].createdAt)
      && (forall id :: id in users ==> Select(users[id]) in r)
  {
    var ids := NewestFirst(users, users.Keys);
    assert forall i :: 0 <= i < |ids| ==> ids[i] in users by {
      forall i | 0 <= i < |ids| ensures ids[i] in users {
        assert ids[i] in ids;
      }
    }
    SummariesSorted(users, ids);
    SummariesCover(users, ids);
  }

  /** Summaries of ids ordered newest first are ordered newest first. */
  lemma SummariesSorted(users: map<string, UserRecord>, ids: seq<string>)
    requires forall i :: 0 <= i < |ids| ==> ids[i] in users
    requires forall i, j :: 0 <= i < j < |ids| ==> users[ids[i]].createdAt >= users[ids[j]].createdAt
    ensures var r := Summaries(users, ids);
      forall i, j :: 0 <= i < j < |r| ==> r[i].createdAt >= r[j].createdAt
  {
    var r := Summaries(users, ids);
    forall i, j | 0 <= i < j < |r| ensures r[i].createdAt >= r[j].createdAt {
      assert r[i] == Select(users[ids[i]]) && r[j] == Select(users[ids[j]]);
    }
  }

  /** The summary of every listed id is among the summaries. */
  lemma SummariesCover(users: map<string, UserRecord>, ids: seq<string>)
    requires forall i :: 0 <= i < |ids| ==> ids[i] in users
    ensures forall id :: id in ids ==> Select(users[id]) in Summaries(users, ids)
  {
    var r := Summaries(users, ids);
    forall id | id in ids ensures Select(users[id]) in r {
      var i :| 0 <= i < |ids| && ids[i] == id;
      assert r[i] == Select(users[id]);
    }
  }

  /** Every summary of records of `ids` is the summary of a stored record. */
  lemma SummariesOnlyStored(users: map<string, UserRecord>, ids: seq<string>)
    requires forall i :: 0 <= i < |ids| ==> ids[i] in users
    ensures var r := Summaries(users, ids);
      forall i :: 0 <= i < |r| ==> exists id :: id in users && r[i] == Select(users[id])
  {
    var r := Summaries(users, ids);
    forall i | 0 <= i < |r| ensures exists id :: id in users && r[i] == Select(users[id]) {
      assert ids[i] in users && r[i] == Select(users[ids[i]]);
    }
  }

  /** Conversely, every entry of the list is the summary of some stored
      record: nothing is invented. */
  lemma ListUsersOnlyStored(users: map<string, UserRecord>)
    ensures var r := ListUsers(users);
      forall i :: 0 <= i < |r| ==> exists id :: id in users && r[i] == Select(users[id])
  {
    ListingFacts(users);
    SummariesOnlyStored(users, NewestFirst(users, users.Keys));
  }


  /** The user table and the audit log. */
  class UserDirectory {
    var users: map<string, UserRecord>
    var auditLog: seq<AuditEvent>

    /** Records are keyed by their id, and no two share an email (the
        table's unique index). */
    ghost predicate Valid()
      reads this
    {
      && (forall id :: id in users ==> users[id].id == id)
      && (forall a, b :: a in users && b in users && users[a].email == users[b].email ==> a == b)
    }

    constructor ()
      ensures Valid() && users == map[] && auditLog == []
    {
      users := map[];
      auditLog := [];
    }

    /** `createUser`: the schema first, then the email's uniqueness, then the
        password policy; only then is an ACTIVE record created with the
        hashed password and a `USER_CREATED` event logged with the email and
        role. Any failure leaves the table and the log as they were. */
    method CreateUser(
      input: CreateUserRequest, actorId: Option<string>,
      newId: string, now: int, hash: string -> string)
      returns (r: Result<UserSummary, ServiceError>)
      requires Valid() && newId !in users
      modifies this
      ensures Valid()
      ensures ParseCreateUser(input).Err? ==> r == Err(ZodError(ParseCreateUser(input).error))
      ensures ParseCreateUser(input).Ok? && EmailTaken(old(users), ParseCreateUser(input).value.email)
        ==> r == Err(DuplicateEmailError)
      ensures ParseCreateUser(input).Ok? && !EmailTaken(old(users), ParseCreateUser(input).value.email)
        && !Compliant(ParseCreateUser(input).value.password)
        ==> r == Err(PlainError(AssertPasswordStrength(ParseCreateUser(input).value.password).message))
      ensures r.Ok? <==> (ParseCreateUser(input).Ok? && !EmailTaken(old(users), ParseCreateUser(input).value.email)
                          && Compliant(ParseCreateUser(input).value.password))
      ensures r.Err? ==> users == old(users) && auditLog == old(auditLog)
      ensures r.Ok? ==>
        var p := ParseCreateUser(input).value;
        var rec := UserRecord(newId, p.email, hash(p.password), p.role, Active, now, now);
        && users == old(users)[newId := rec]
        && r.value == Select(rec)
        && auditLog == old(auditLog) + [AuditEvent("USER_CREATED", "User", newId, actorId,
                                                   Some(map["email" := p.email, "role" := RoleName(p.role)]))]
    {
      var payload := ParseCreateUser(input);
      if payload.Err? {
        return Err(ZodError(payload.error));
      }
      var p := payload.value;
      if EmailTaken(users, p.email) {
        return Err(DuplicateEmailError);
      }
      var strength := AssertPasswordStrength(p.password);
      if strength.Fail? {
        return Err(PlainError(strength.message));
      }
      var passwordHash := hash(p.password);
      var rec := UserRecord(newId, p.email, passwordHash, p.role, Active, now, now);
      users := users[newId := rec];
      auditLog := auditLog + [AuditEvent("USER_CREATED", "User", rec.id, actorId,
                                         Some(map["email" := rec.email, "role" := RoleName(rec.role)]))];
      r := Ok(Select(rec));
    }

    /** `updateUser`: the schema first, then a body with neither key is
        refused, then an unknown id is `UserNotFoundError`; otherwise only the
        supplied fields change, and the `USER_UPDATED` event's metadata holds
        exactly the supplied keys with their names. A store error `fault`
        is translated as the `catch` does and changes nothing. */
    method UpdateUser(userId: string, input: UpdateUserRequest, actorId: Option<string>, now: int,
                      fault: Option<StoreFault>)
      returns (r: Result<UserSummary, ServiceError>)
      requires Valid()
      modifies this
      ensures Valid()
      ensures ParseUpdateUser(input).Err? ==> r == Err(ZodError(ParseUpdateUser(input).error))
      ensures ParseUpdateUser(input) == Ok(UpdateUserInput(None, None)) ==> r == Err(PlainError(NoUpdatesMessage))
      ensures (ParseUpdateUser(input).Ok? && ParseUpdateUser(input) != Ok(UpdateUserInput(None, None))
               && UpdateFailure(old(users), userId, fault).Some?)
              ==> r == Err(UpdateFailure(old(users), userId, fault).value)
      ensures r.Ok? <==> (ParseUpdateUser(input).Ok? && ParseUpdateUser(input) != Ok(UpdateUserInput(None, None))
                          && userId in old(users) && fault.None?)
      ensures r.Err? ==> users == old(users) && auditLog == old(auditLog)
      ensures r.Ok? ==>
        var p := ParseUpdateUser(input).value;
        var before := old(users)[userId];
        var rec := before.(role := p.role.GetOr(before.role), status := p.status.GetOr(before.status), updatedAt := now);
        && users == old(users)[userId := rec]
        && r.value == Select(rec)
        && auditLog == old(auditLog) + [AuditEvent("USER_UPDATED", "User", userId, actorId, Some(UpdateMetadata(p)))]
    {
      var payload := ParseUpdateUser(input);
      if payload.Err? {
        return Err(ZodError(payload.error));
      }
      var p := payload.value;
      if p.role.None? && p.status.None? {
        return Err(PlainError(NoUpdatesMessage));
      }
      var failure := UpdateFailure(users, userId, fault);
      if failure.Some? {
        return Err(failure.value);
      }
      var before := users[userId];
      var rec := before.(role := p.role.GetOr(before.role), status := p.status.GetOr(before.status), updatedAt := now);
      var metadata: map<string, string> := map[];
      if p.role.Some? {
        metadata := metadata["role" := RoleName(p.role.value)];
      }
      if p.status.Some? {
        metadata := metadata["status" := StatusName(p.status.value)];
      }
      assert metadata == UpdateMetadata(p);
      Rewrite(rec, AuditEvent("USER_UPDATED", "User", rec.id, actorId, Some(metadata)));
      r := Ok(Select(rec));
    }

    /** The `update` of an existing record that keeps its id and email,
        with the audit event logged after it. */
    method Rewrite(rec: UserRecord, event: AuditEvent)
      requires Valid() && rec.id in users && users[rec.id].email == rec.email
      modifies this
      ensures Valid()
      ensures users == old(users)[rec.id := rec]
      ensures auditLog == old(auditLog) + [event]
    {
      users := users[rec.id := rec];
      auditLog := auditLog + [event];
    }

    /** `resetUserPassword`: a fresh temporary password, which always passes
        the policy, is hashed and stored, the account is reactivated and a
        `USER_PASSWORD_RESET` event without metadata is logged; the summary
        and the plain temporary password are returned. An unknown id is
        `UserNotFoundError`, a store error `fault` is translated as the
        `catch` does, and either changes nothing. */
    method ResetUserPassword(userId: string, actorId: Option<string>, now: int, hash: string -> string, draws: Draws,
                             fault: Option<StoreFault>)
      returns (r: Result<(UserSummary, string), ServiceError>)
      requires Valid() && ValidDraws(draws)
      modifies this
      ensures Valid()
      ensures r.Ok? <==> userId in old(users) && fault.None?
      ensures r.Err? ==> Some(r.error) == UpdateFailure(old(users), userId, fault)
      ensures r.Err? ==> users == old(users) && auditLog == old(auditLog)
      ensures r.Ok? ==>
        var temp := r.value.1;
        var rec := old(users)[userId].(passwordHash := hash(temp), status := Active, updatedAt := now);
        && Compliant(temp) && |temp| == Length
        && multiset(temp) == multiset(Unshuffled(draws))
        && users == old(users)[userId := rec]
        && r.value.0 == Select(rec)
        && auditLog == old(auditLog) + [AuditEvent("USER_PASSWORD_RESET", "User", userId, actorId, None)]
    {
      var tempPassword := GenerateTemporaryPassword(draws);
      assert AssertPasswordStrength(tempPassword).Pass?;
      var passwordHash := hash(tempPassword);
      var failure := UpdateFailure(users, userId, fault);
      if failure.Some? {
        return Err(failure.value);
      }
      var rec := users[userId].(passwordHash := passwordHash, status := Active, updatedAt := now);
      Rewrite(rec, AuditEvent("USER_PASSWORD_RESET", "User", rec.id, actorId, None));
      r := Ok((Select(rec), tempPassword));
    }
  }

  /** The metadata of a `USER_UPDATED` event: the supplied keys, by name. */
  function UpdateMetadata(p: UpdateUserInput): (m: map<string, string>)
    ensures "role" in m <==> p.role.Some?
    ensures "status" in m <==> p.status.Some?
    ensures p.role.Some? ==> m["role"] == RoleName(p.role.value)
    ensures p.status.Some? ==> m["status"] == StatusName(p.status.value)
    ensures m.Keys <= {"role", "status"}
  {
    (if p.role.Some? then map["role" := RoleName(p.role.value)] else map[])
    + (if p.status.Some? then map["status" := StatusName(p.status.value)] else map[])
  }

  /** The summary a listing or an operation returns never carries the
      password hash: two records that differ only in it look the same. */
  lemma {:induction false} SummaryHidesHash(u: UserRecord, h: string)
    ensures Select(u) == Select(u.(passwordHash := h))
  {
  }
}
