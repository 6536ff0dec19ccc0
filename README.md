# wavelaunchOS core, modelled in Dafny

wavelaunchOS is a studio CRM plus a public creator-application form. This project models four parts of it and proves properties of them:

- **Authentication and authorisation gate.** It covers:
  - the five-rule password policy;
  - the role and status enumerations and the user input schemas;
  - the credential authoriser;
  - the `authorize` wrapper and the `jwt`/`session` callbacks (the session lifetime `SessionMaxAge` is seven days, 604800 seconds);
  - the three-guard role gate;
  - the route middleware's prefix rules.
- **User directory service.** A `UserDirectory` class holds the user table (a map from id to record) and the append-only audit log. `createUser`, `updateUser` and `resetUserPassword` validate, change one record and log one event. A store error is translated the way the service's `catch` translates it: the not-found code `P2025` becomes `UserNotFoundError`, and any other error is passed on. The temporary password generator is an in-place Fisher–Yates shuffle over an array. The admin users route maps each outcome to an HTTP status.
- **Application-form schema.** The seven-section schema is data (`Schema`) built from nine field rules. Each rule covers a mix of empty-to-absent, trimming, numeric coercion, minimum length, enumerations and non-empty multi-selects. Parsing collects every failing field's issues with their paths. The walk over sections and fields takes the field parser as a parameter, so its properties hold for any parser that reports at least one issue when it fails; the schema's parser is `ParseField`. The section metadata the page renders from (`Sections`) is proved to agree with the schema.
- **Multi-step form page.** An `ApplicationPage` class holds the values, the field errors, the current step and the submission flags. It has operations for "Continue" (validates only the current section), "Back" (clamped, no validation), submit, and the end of a submission.

One module per source file. Injected or external behaviour is a parameter of the model:

- the user lookup and `compareFn`;
- bcrypt (a `hash` function);
- the random draws (`Draws`, in call order, each within the range it was drawn from);
- record ids and clocks;
- store errors (`fault`);
- whether the body parsed as JSON;
- the submission API flag and the reply.

## Model

| member | source | states |
|---|---|---|
| Common.Trim | packages/shared/validation/application-form.ts:60 | `trim()` is no longer than its input, and a non-empty result neither starts nor ends with whitespace |
| Common.TrimKeepsInfix | packages/shared/validation/application-form.ts:60 | `trim()` keeps a contiguous part of the string and removes only whitespace before and after it |
| Common.TrimIdempotent | packages/shared/validation/application-form.ts:60 | trimming twice is trimming once |
| Common.TrimEmptyIffAllWhitespace | packages/shared/validation/application-form.ts:93 | a string trims to "" exactly when it is whitespace only (so `min(1)` after `trim()` rejects exactly those) |
| Common.Join | packages/shared/auth/password.ts:35 | joining one message gives it unchanged; joining several starts with the first and the separator |
| Password.Utf16Length | packages/shared/auth/password.ts:5 | the JavaScript length of a string, in UTF-16 code units: at least its number of characters and at most twice it |
| Password.Utf16LengthAppend | packages/shared/auth/password.ts:5 | the code-unit length of a concatenation is the sum of the lengths |
| Password.RemoveAtLength | packages/shared/auth/password.ts:5 | removing one character takes off exactly its code units |
| Password.RemoveMatched | packages/shared/auth/password.ts:5 | removing a matched character from two permutations of each other leaves permutations of each other |
| Password.Utf16LengthOfPermutation | packages/shared/auth/password.ts:5 | permutations of each other have the same code-unit length |
| Password.ValidatePasswordStrength | packages/shared/auth/password.ts:19-27 | success exactly when all five rules hold, the length rule counting UTF-16 code units, exactly when errors is empty; errors are the collected messages of the violated rules |
| Password.AssertPasswordStrength | packages/shared/auth/password.ts:32-37 | returns normally exactly for a compliant password; otherwise fails with the errors joined by one space, which starts with the first error |
| Password.MessagesDistinct | packages/shared/auth/password.ts:5-9 | the five rule messages are pairwise different |
| Password.TooShortReportedIffShort | packages/shared/auth/password.ts:5 | the length message is reported exactly for passwords under 12 UTF-16 code units, whatever their content |
| Password.ClassMessagesIffMissing | packages/shared/auth/password.ts:6-9 | each class message (uppercase, lowercase, number, special) is reported exactly when that class is absent |
| Password.ErrorsInRuleOrder | packages/shared/auth/password.ts:3-9 | the errors are rule messages in strictly increasing rule order: none skipped by short-circuiting, none repeated, none reordered |
| Password.ShortPasswordExample | packages/shared/__tests__/auth/password.test.ts:12-23 | "short" fails with exactly the length, uppercase, number and special messages, in that order |
| Password.StrongPasswordExample | packages/shared/__tests__/auth/password.test.ts:6-10 | "StrongPass!234" succeeds with no errors |
| Password.AcceptedWithOneOfEach | packages/shared/auth/password.ts:3-9 | at least twelve characters with one character of each class always pass, with no errors |
| Password.AstralCharactersCountTwice | packages/shared/auth/password.ts:5 | five emoji and "Aa1!" are 9 characters but 14 code units, and the password is accepted |
| UserSchema.ParseRole | packages/shared/auth/user.ts:3 | a role name is accepted exactly when it is ADMIN, FOUNDER or TEAM_MEMBER, and the role is the one it names |
| UserSchema.ParseStatus | packages/shared/auth/user.ts:5 | a status name is accepted exactly when it is ACTIVE or DEACTIVATED, and the status is the one it names |
| UserSchema.NamesRoundTrip | packages/shared/auth/user.ts:3-5 | printing a role or status and parsing it back gives it back |
| UserSchema.ParseCreateUser | packages/shared/auth/user.ts:7-11 | accepted exactly for an object with a well-formed email, a non-empty password and a valid role, kept as given; otherwise the failing keys, each listed exactly when its check fails, or the body as a whole when it is not an object |
| UserSchema.ParseUpdateUser | packages/shared/auth/user.ts:13-16 | accepted only for an object; each key may be missing, and then stays missing; a present key must be a member of its enumeration; failing keys listed exactly; a body that is not an object fails as a whole |
| UserSchema.EmptyUpdateAccepted | packages/shared/auth/user.ts:13-16 | the empty object is accepted with nothing to change |
| UserSchema.IsAdminOnlyForAdmin | packages/shared/auth/user.ts:21-23 | `isAdmin` holds of the ADMIN role's name only, and not of a missing role |
| Credentials.ParseCredentials | apps/crm/src/auth/credentials.ts:6-9 | accepted exactly for a well-formed email and a non-empty password, both kept unchanged |
| Credentials.AuthorizeWithCredentials | apps/crm/src/auth/credentials.ts:18-57 | an identity exactly when a record exists for the email, has a non-empty hash, `compareFn(password, hash)` holds and the status is ACTIVE. `compareFn` is called exactly when a record with a hash was found, on (password, hash). The identity copies id, email, role and status, nulls the rest, and is ACTIVE |
| Credentials.OnlyTheExactEmailMatters | apps/crm/src/auth/credentials.ts:22-23 | two lookups that agree on the email as given lead to the same outcome |
| Credentials.DeactivatedUserComparedThenRefused | apps/crm/src/auth/credentials.ts:37-44 | a deactivated user with a hash is still compared, and is refused |
| AuthConfig.Authorize | apps/crm/src/auth.ts:26-33 | null when the credentials schema rejects the input, otherwise exactly the authoriser's result; any identity is ACTIVE |
| AuthConfig.JwtClaims | apps/crm/src/auth.ts:37-45 | without a user the token is unchanged. With one, the id is the user's, and each other claim is the user's when defined and the token's previous one otherwise |
| AuthConfig.SessionClaims | apps/crm/src/auth.ts:46-54 | each session claim is the token's when present and the session's own otherwise; the email falls back finally to "" and so is always present |
| AuthConfig.JwtCallback | apps/crm/src/auth.ts:37-45 | updates the token object in place to `JwtClaims` of its old claims and returns the same object |
| AuthConfig.SessionCallback | apps/crm/src/auth.ts:46-54 | updates the session's user object in place to `SessionClaims`, leaves the token unchanged, and returns the same session |
| AuthConfig.SignInSessionCarriesIdentity | apps/crm/src/auth.ts:37-54 | after a successful sign-in the session carries exactly the authorised user's id, email and role and status ACTIVE, whatever the token and session held before |
| RoleGate.RequireRole | apps/crm/src/auth/role.ts:13-29 | succeeds with the session unchanged exactly for a signed-in, ACTIVE user with the required role. Otherwise: 401 "Unauthorized" without a user; 403 "User account is inactive" for a non-ACTIVE user, whatever the role; 403 "Forbidden" for an active user with another role |
| RoleGate.RequireAdmin | apps/crm/src/auth/role.ts:31-33 | behaves exactly as `requireRole("ADMIN")`; success means an admin user |
| RoleGate.OnlyUnauthorizedOrForbidden | apps/crm/src/auth/role.ts:16-26 | the gate raises only 401 or 403, and 401 exactly when nobody is signed in |
| RoleGate.FreshSignInPassesIffRole | apps/crm/src/auth/role.ts:13-29 | a session built by the callbacks right after a successful sign-in passes the gate exactly when the user has the required role |
| Middleware.Middleware | apps/crm/middleware.ts:8-45 | a request goes through exactly when its path is public, or its token is ACTIVE and, on an admin path, has role ADMIN. A JSON 403 "Forbidden" is answered only under "/app/api" |
| Middleware.PublicIgnoresToken | apps/crm/middleware.ts:10-14 | a public path passes whatever the token |
| Middleware.NoTokenRedirects | apps/crm/middleware.ts:18-31 | without a token, a private path under "/app" goes to /login with `callbackUrl` = path + query, and any other private path to /login?reason=deactivated |
| Middleware.InactiveTokenRedirects | apps/crm/middleware.ts:27-31 | a token whose status is not ACTIVE (or is missing) goes to /login?reason=deactivated on every private path |
| Middleware.NonAdminOnAdminPath | apps/crm/middleware.ts:33-42 | an active non-admin on an admin path gets a 403 JSON response under "/app/api" and a redirect to /app elsewhere |
| Middleware.PrefixMatchingIsLiteral | apps/crm/middleware.ts:10-33 | matching is a bare prefix test: "/loginx" is public and "/app/usersx" is an admin path |
| Middleware.AdminApiNotGatedByRole | apps/crm/middleware.ts:5-6 | "/api/admin/users" matches neither list, so any ACTIVE token passes the middleware there whatever its role |
| Middleware.RootWithoutTokenLooksDeactivated | apps/crm/middleware.ts:18-31 | "/" without a token is sent to /login?reason=deactivated |
| TemporaryPassword.Unshuffled | apps/crm/src/lib/users.ts:191-197 | the pre-shuffle array has 16 characters: one from each class, then twelve from the union |
| TemporaryPassword.ShufflePermutes | apps/crm/src/lib/users.ts:199-202 | the swaps of the shuffle keep every character and its count |
| TemporaryPassword.UnshuffledFromAllChars | apps/crm/src/lib/users.ts:189-195 | every drawn character lies in `allChars` |
| TemporaryPassword.Drawn | apps/crm/src/lib/users.ts:191-195 | one character per draw, the alphabet's character at that index |
| TemporaryPassword.UppercaseIsUpper | apps/crm/src/lib/users.ts:185 | every character of the uppercase class passes the uppercase rule |
| TemporaryPassword.LowercaseIsLower | apps/crm/src/lib/users.ts:186 | every character of the lowercase class passes the lowercase rule |
| TemporaryPassword.NumbersAreDigits | apps/crm/src/lib/users.ts:187 | every character of the number class passes the number rule |
| TemporaryPassword.SymbolsAreSpecial | apps/crm/src/lib/users.ts:188 | every symbol is a special character for the password policy |
| TemporaryPassword.UnshuffledCompliant | apps/crm/src/lib/users.ts:193 | the four required characters make the pre-shuffle password compliant |
| TemporaryPassword.CompliantUnderPermutation | packages/shared/auth/password.ts:3-9 | each rule depends only on which characters occur, so a rearrangement of a compliant password is compliant |
| TemporaryPassword.GenerateTemporaryPassword | apps/crm/src/lib/users.ts:184-205 | the in-place loop computes the shuffle of the drawn characters. The result has 16 characters, all from `allChars`, is a permutation of the pre-shuffle array, and always passes `validatePasswordStrength` |
| Users.TranslateFault | apps/crm/src/lib/users.ts:146-151 | a store error becomes `UserNotFoundError` exactly when its code is P2025, and is re-raised unchanged otherwise |
| Users.UpdateFailure | apps/crm/src/lib/users.ts:25-26 | an update of a missing id fails with `UserNotFoundError`; of an existing id, it fails exactly when the store raises an error, translated as above |
| Users.NewestFirst | apps/crm/src/lib/users.ts:58-61 | every id once, in non-increasing `createdAt` order |
| Users.Summaries | apps/crm/src/lib/users.ts:58-61 | one summary per id, in the given order, each the selected columns of that record |
| Users.ListUsers | apps/crm/src/lib/users.ts:48-64 | one summary per record, every record's summary included, newest first |
| Users.ListUsersOnlyStored | apps/crm/src/lib/users.ts:48-64 | every entry of the list is the summary of some stored record |
| Users.SummaryHidesHash | apps/crm/src/lib/users.ts:16-23 | the selected columns do not depend on the password hash |
| Users.UpdateMetadata | apps/crm/src/lib/users.ts:129-135 | the metadata holds exactly the supplied keys, each with its enumeration name |
| Users.UserDirectory.CreateUser | apps/crm/src/lib/users.ts:66-100 | the schema is checked first, then the duplicate email (409) before the password policy. It succeeds exactly when all pass. It then adds one ACTIVE record with the hashed password and appends one `USER_CREATED` event with the email and role. Every failure changes nothing. The one-record-per-email invariant is kept |
| Users.UserDirectory.UpdateUser | apps/crm/src/lib/users.ts:102-153 | the schema first; a body with neither key is "No updates provided."; a missing id or a store error as `UpdateFailure` says. On success only the supplied fields (and `updatedAt`) of that record change, and one `USER_UPDATED` event with `UpdateMetadata` is appended. Failures change nothing |
| Users.UserDirectory.ResetUserPassword | apps/crm/src/lib/users.ts:155-182 | succeeds exactly for an existing id without a store error. It stores the hash of a compliant 16-character temporary password, sets ACTIVE, keeps email and role, appends `USER_PASSWORD_RESET` without metadata, and returns the plain password. Failures change nothing |
| AdminUsersRoute.Get | apps/crm/src/app/api/admin/users/route.ts:7-20 | 200 with the listing exactly for an active admin whose listing succeeded; the gate's own message and status when it refuses; 500 "Unable to list users" otherwise |
| AdminUsersRoute.CreateFailure | apps/crm/src/app/api/admin/users/route.ts:28-43 | 400 exactly for a schema failure, with its fields; 409 exactly for a duplicate email; 500 "Unable to create user" for everything else |
| AdminUsersRoute.WeakPasswordIsServerError | apps/crm/src/app/api/admin/users/route.ts:41-42 | a password-policy failure is answered 500, not 400 |
| AdminUsersRoute.Post | apps/crm/src/app/api/admin/users/route.ts:22-44 | the gate before the body. 201 exactly when the admin's request creates the user. Then the table gains exactly one ACTIVE record under the new id, with the parsed email and role and the hash of the password, and nothing else changes. The log gains exactly one `USER_CREATED` event with the email and role, whose actor is the admin. The body holds that record's summary. 400/409/500 as the `catch` says: 400 with the failing keys for a body that fails the schema (the body as a whole when it is JSON but not an object), 409 for a taken email, 500 for a weak password or a body that is not JSON. Every non-201 leaves the directory unchanged |
| ApplicationForm.EmptyToUndefined | packages/shared/validation/application-form.ts:48-54 | "", null and undefined become absent; every other value is returned unchanged |
| ApplicationForm.EmptyToUndefinedIdempotent | packages/shared/validation/application-form.ts:48-54 | applying it twice is applying it once |
| ApplicationForm.ParseNumericString | packages/shared/validation/application-form.ts:76 | number coercion reads a whitespace-only string as 0 |
| ApplicationForm.NumericStringRoundTrip | packages/shared/validation/application-form.ts:76 | the decimal digits of a whole number coerce back to that number |
| ApplicationForm.DecimalDigits | packages/shared/__tests__/validation/application-form.test.ts:112 | a decimal such as "4.5" coerces to its whole part plus its fraction over the matching power of ten |
| ApplicationForm.UnsignedDecimalDigits | packages/shared/validation/application-form.ts:76 | the same reading of digits, a point and digits, before signs and whitespace are considered |
| ApplicationForm.NotAString | packages/shared/validation/application-form.ts:93 | a non-string is one issue: "Required" exactly when the value is missing |
| ApplicationForm.ParseRequiredText | packages/shared/validation/application-form.ts:93 | accepted exactly for a string at least `minLength` long after trimming, yielding the trimmed string; otherwise the schema's own message for a string, a type issue else |
| ApplicationForm.ParseRequiredEmail | packages/shared/validation/application-form.ts:94 | accepted exactly for a string whose trimmed form is a well-formed email, yielding the trimmed string |
| ApplicationForm.ParseOptionalText | packages/shared/validation/application-form.ts:56-62 | absent when empty-to-absent makes it so; otherwise accepted exactly for a string, trimmed; else "Must be text" |
| ApplicationForm.ParseOptionalUrl | packages/shared/validation/application-form.ts:64-71 | absent when empty; otherwise accepted exactly for a string whose trimmed form is a URL. Else "Must be a valid URL" for a string and "Must be a URL" for anything else |
| ApplicationForm.ParseChoice | packages/shared/validation/application-form.ts:73-74 | accepted exactly for a listed option, or for an absent or empty value when optional; one issue otherwise |
| ApplicationForm.ElementIssues | packages/shared/validation/application-form.ts:122 | no issues exactly when every element is a listed option |
| ApplicationForm.ElementIssuesAtBadElements | packages/shared/validation/application-form.ts:122 | each element issue carries the index of an element that is not a listed option |
| ApplicationForm.ParseMultiChoice | packages/shared/validation/application-form.ts:121-123 | accepted exactly for a non-empty array of listed options, unchanged. The empty array gets the schema's message; element issues carry their index |
| ApplicationForm.WholeNumberIssues | packages/shared/validation/application-form.ts:76 | no issues exactly for an integer at least 0; a fraction is reported with the schema's "Must be a number" (its `invalid_type_error` also words the `.int()` failure), a negative number with the `.min(0)` issue |
| ApplicationForm.FractionIsNotAWholeNumber | packages/shared/validation/application-form.ts:76-78 | any value that coerces to a non-negative fraction is rejected with exactly one issue, "Must be a number" |
| ApplicationForm.NatToStringBelowPow10 | packages/shared/validation/application-form.ts:76 | a number is below ten to the power of its digit count |
| ApplicationForm.FractionalDecimal | packages/shared/validation/application-form.ts:76 | "w.f" with a non-zero fraction part coerces to a non-negative number that is not an integer |
| ApplicationForm.FractionDigitsAreNotAWholeNumber | packages/shared/validation/application-form.ts:76-78 | a whole-number field typed as "w.f" with a non-zero fraction part, such as "2.5", is rejected with "Must be a number" |
| ApplicationForm.PercentageIssues | packages/shared/validation/application-form.ts:86-87 | no issues exactly for a number in [0, 100] |
| ApplicationForm.ParseWholeNumber | packages/shared/validation/application-form.ts:76-80 | absent for an empty optional value; otherwise accepted exactly when coercion yields an integer at least 0, as that number; "Must be a number" when coercion fails |
| ApplicationForm.ParsePercentage | packages/shared/validation/application-form.ts:82-89 | absent when empty; otherwise accepted exactly when coercion yields a number in [0, 100]; its own message when coercion fails |
| ApplicationForm.ParseField | packages/shared/validation/application-form.ts:91-155 | a rejected field always has at least one issue |
| ApplicationForm.MissingAcceptedIffOptional | packages/shared/validation/application-form.ts:91-155 | a missing value is accepted exactly by the optional rules, and stays missing |
| ApplicationForm.RequiredTextStable | packages/shared/validation/application-form.ts:93 | re-parsing an accepted required text gives the same value |
| ApplicationForm.RequiredEmailStable | packages/shared/validation/application-form.ts:94 | re-parsing an accepted email gives the same value |
| ApplicationForm.OptionalTextStable | packages/shared/validation/application-form.ts:56-62 | re-parsing accepted optional text gives it again, except that "" (from whitespace-only input) then becomes absent |
| ApplicationForm.OptionalUrlStable | packages/shared/validation/application-form.ts:64-71 | re-parsing an accepted optional URL gives it again |
| ApplicationForm.ChoiceStable | packages/shared/validation/application-form.ts:73-74 | re-parsing an accepted choice gives it again |
| ApplicationForm.NumberStable | packages/shared/validation/application-form.ts:76-80 | re-parsing an accepted whole number gives it again |
| ApplicationForm.PercentageStable | packages/shared/validation/application-form.ts:82-89 | re-parsing an accepted percentage gives it again |
| ApplicationForm.ParseFieldIdempotent | packages/shared/validation/application-form.ts:48-89 | every rule's output is accepted again and given back unchanged, except that an optional "" becomes absent |
| ApplicationForm.IssuePath | packages/shared/validation/application-form.ts:91-155 | a field issue's path starts with the section key and then the field name |
| ApplicationForm.AtPaths | packages/shared/validation/application-form.ts:91-155 | one issue per field issue, each at its path and with its kind |
| ApplicationForm.FieldPathIssues | packages/shared/validation/application-form.ts:91-155 | a field has issues exactly when its rule rejects its value, each under the path section.field |
| ApplicationForm.FieldsIssues | packages/shared/validation/application-form.ts:91-155 | no issues exactly when every field passes |
| ApplicationForm.FieldIssueAt | packages/shared/validation/application-form.ts:91-155 | each field issue lies under the section's key and then the name of a field that fails |
| ApplicationForm.FieldsIssuesUnderFields | packages/shared/validation/application-form.ts:91-155 | the same for all the issues of a section's fields at once |
| ApplicationForm.SectionIssues | packages/shared/validation/application-form.ts:91-155 | no issues exactly when the section is present and valid |
| ApplicationForm.SectionIssuesUnderSection | packages/shared/validation/application-form.ts:91-155 | every issue of a section lies under the section's key, "Required" included when it is missing |
| ApplicationForm.SectionsIssues | packages/shared/validation/application-form.ts:91-155 | no issues exactly when every section is valid |
| ApplicationForm.SectionsIssuesUnderSections | packages/shared/validation/application-form.ts:91-155 | every issue lies under the key of one of the sections |
| ApplicationForm.ParsedFieldsKeys | packages/shared/validation/application-form.ts:91-155 | a parsed section has exactly the schema's field names as keys; unknown keys are dropped |
| ApplicationForm.ParsedFieldAt | packages/shared/validation/application-form.ts:91-155 | each field's key holds that field's parsed value |
| ApplicationForm.ParsedSectionsKeys | packages/shared/validation/application-form.ts:91-155 | the parsed form has exactly the sections' ids as keys |
| ApplicationForm.ParsedSectionAt | packages/shared/validation/application-form.ts:91-155 | each section's key holds that section's parsed fields, and the section was present and valid |
| ApplicationForm.SchemaIdsDistinct | packages/shared/validation/application-form.ts:91-155 | the seven section keys are distinct |
| ApplicationForm.ParseForm | packages/shared/validation/application-form.ts:91-155 | for any field parser that reports its failures and any sections with distinct ids: accepted exactly when every section is present and valid, yielding exactly the section ids as keys; otherwise a non-empty list of issues, each under a section's key |
| ApplicationForm.ParseApplicationForm | packages/shared/validation/application-form.ts:91-155 | `applicationFormSchema` accepts exactly the submissions whose seven sections are present and valid; a rejection lists at least one issue |
| ApplicationForm.ParsedSectionOf | packages/shared/validation/application-form.ts:91-155 | an accepted submission has every section, valid, and its output section is that section's parsed fields |
| ApplicationForm.BlankFullNameRejected | packages/shared/__tests__/validation/application-form.test.ts:79-93 | a blank `fullName` fails with "Full name is required" |
| ApplicationForm.NoContentTypeRejected | packages/shared/__tests__/validation/application-form.test.ts:146-161 | an empty `contentTypes` fails with "Select at least one content type" |
| ApplicationForm.WholeNumberDigitsAccepted | packages/shared/__tests__/validation/application-form.test.ts:95-144 | the digit string of any whole number is coerced to that number |
| ApplicationForm.PercentageDigits | packages/shared/validation/application-form.ts:82-89 | the digit string of a whole number is an accepted percentage exactly when it is at most 100 |
| ApplicationForm.EmptyStringAbsentOrRejected | packages/shared/validation/application-form.ts:124 | "" is absent for every optional rule, while the required `audienceSize` rejects it as "Must be a number" |
| ApplicationForm.WhitespaceOnlyIsNotAbsent | packages/shared/validation/application-form.ts:56-62 | whitespace-only optional text becomes "" rather than absent, and a whitespace-only number is 0 |
| FormSections.TextField | packages/shared/validation/application-form.ts:185-196 | a text input with the given name, caption and required flag, optional by default, without options |
| FormSections.ApplicantAgrees | packages/shared/validation/application-form.ts:199-219 | the applicant metadata agrees with its schema section field by field |
| FormSections.BrandAgrees | packages/shared/validation/application-form.ts:220-243 | the brand metadata agrees with its schema section |
| FormSections.SocialAgrees | packages/shared/validation/application-form.ts:244-263 | the social metadata agrees with its schema section |
| FormSections.AudienceAgrees | packages/shared/validation/application-form.ts:264-301 | the audience metadata agrees with its schema section |
| FormSections.ContentAgrees | packages/shared/validation/application-form.ts:302-338 | the content metadata agrees with its schema section |
| FormSections.GoalsAgrees | packages/shared/validation/application-form.ts:339-369 | the goals metadata agrees with its schema section |
| FormSections.LogisticsAgrees | packages/shared/validation/application-form.ts:370-402 | the logistics metadata agrees with its schema section |
| FormSections.Ids | packages/shared/validation/application-form.ts:198-403 | the ids of the sections, one per section, in order |
| FormSections.MetadataMatchesSchema | packages/shared/validation/application-form.ts:198-403 | seven sections in schema order, with the schema's ids. Every field agrees with the schema: same names in the same order, required exactly when the schema field is not optional, the same option lists as the schema's enums, and an input kind that fits the rule |
| FormSections.SectionIdsInOrder | packages/shared/__tests__/validation/application-form.test.ts:164-171 | the section ids are applicant, brand, social, audience, content, goals, logistics, in that order |
| FormPage.PathRoundTrip | apps/application-form/src/app/apply/form/page.tsx:55 | a path "sectionId.fieldName" splits back into its section and field when the id has no dot |
| FormPage.SectionFieldPaths | apps/application-form/src/app/apply/form/page.tsx:52-58 | one path per field, in order, each naming that section and field |
| FormPage.SectionIdsHaveNoDot | packages/shared/validation/application-form.ts:198-403 | no section id contains a dot |
| FormPage.IdNamesHaveNoDot | packages/shared/validation/application-form.ts:198-403 | none of the seven section names contains a dot |
| FormPage.StepPathsNameSchemaFields | apps/application-form/src/app/apply/form/page.tsx:52-58 | the paths of a step name exactly the schema's fields of that section, in order |
| FormPage.FirstOwnMessage | apps/application-form/src/app/apply/form/page.tsx:32 | no message exactly when every issue is about an element; otherwise the message of an issue about the field itself |
| FormPage.FieldErrorOf | apps/application-form/src/app/apply/form/page.tsx:32 | a field has an error exactly when its section is present and its rule rejects its value |
| FormPage.Revalidated | apps/application-form/src/app/apply/form/page.tsx:94 | validating a section's fields sets or clears exactly those fields' entries, to their fresh errors; other entries are kept |
| FormPage.StepValidIffSectionValid | apps/application-form/src/app/apply/form/page.tsx:93-99 | with its section present, a step passes exactly when the schema accepts the section; a missing section does not hold the step back |
| FormPage.IssueField | apps/application-form/src/app/apply/form/page.tsx:32 | an issue lies within a field exactly when its path starts with two keys |
| FormPage.IssueErrors | apps/application-form/src/app/apply/form/page.tsx:32 | an error entry for exactly the fields some issue lies within; the message is that of the field's first own issue |
| FormPage.Resolve | apps/application-form/src/app/apply/form/page.tsx:60 | the resolver accepts exactly the valid forms, with no errors, and otherwise reports the field errors of the schema's issues |
| FormPage.ResolveIsApplicationForm | apps/application-form/src/app/apply/form/page.tsx:32 | over the application schema, the resolver accepts exactly what `applicationFormSchema` accepts |
| FormPage.PrimaryButtonAt | apps/application-form/src/app/apply/form/page.tsx:239-256 | the submit button exactly on the last step, "Continue" before it. Submit is disabled exactly while submitting, and shows the submitting caption exactly then |
| FormPage.FailureMessage | apps/application-form/src/app/apply/form/page.tsx:74-90 | a refused submission shows the reply's message or the fixed default; a thrown non-`Error` shows the fixed fallback |
| FormPage.ApplicationPage.constructor | apps/application-form/src/app/apply/form/page.tsx:46-48 | the page starts on step 0, not submitting, with no submission error and no field errors, over the application schema and its metadata |
| FormPage.ApplicationPage.GetFieldError | apps/application-form/src/app/apply/form/page.tsx:106-111 | the recorded message of that field exactly when it has an entry, and nothing for a field without one |
| FormPage.ApplicationPage.GoNext | apps/application-form/src/app/apply/form/page.tsx:93-99 | validates only the current section's fields and records their errors. It advances one step, clamped at the last, exactly when none has an error, and otherwise stays. Nothing else changes and the step stays in range |
| FormPage.ApplicationPage.GoBack | apps/application-form/src/app/apply/form/page.tsx:101-104 | one step back, clamped at 0, with no validation; nothing else changes |
| FormPage.ApplicationPage.SubmitForm | apps/application-form/src/app/apply/form/page.tsx:60-62 | starts exactly when the whole schema accepts the values. Errors become the resolver's. A started submission clears the submission error and sets submitting. Values, step and location are unchanged |
| FormPage.ApplicationPage.CompleteSubmission | apps/application-form/src/app/apply/form/page.tsx:64-90 | success (or the mock path) navigates to /apply/success, with "?mode=mock" exactly when the API is off, and keeps submitting. Failure sets the failure message and stops submitting. The step never changes |
| FormPage.SubmitOnlyOnLastStep | apps/application-form/src/app/apply/form/page.tsx:239 | there are seven steps and the submit button shows exactly on the seventh |
| FormPage.AcceptedFormPassesEveryStep | apps/application-form/src/app/apply/form/page.tsx:93-99 | values the schema accepts pass "Continue" at every step |

## Left out

- I/O and libraries left out. Prisma, bcrypt, `crypto.randomInt`, NextAuth's token signing and `getToken`, `NextResponse`, `fetch`, `router.push`, `window.scrollTo`, `setTimeout`, React rendering and `console` output are not modelled; where they feed a decision they are parameters.
- Async scheduling, concurrent requests (including two creates racing for one email) and double submission are not modelled.
- Common.WellFormedEmail and Common.WellFormedUrl are simplified stand-ins for zod's email regex and the `URL` constructor. They are not the same languages.
- ApplicationForm.ParseNumericString: JavaScript's `Number()` is modelled for decimal strings only (optional sign, digits, one dot, surrounding whitespace). Exponents, hex and "Infinity" are not modelled, and an array is always taken as not a number (JavaScript reads `[]` as 0 and a one-element array as its element). These values fail as not a number. Numbers are exact reals, not IEEE doubles.
- ApplicationForm.ParseRequiredText: lengths are counted in characters, not UTF-16 code units.
- zod's default message wording is approximated in `Message`. Only the schema's own messages are exact, including "Must be a number" for a fraction in a whole-number field, which zod words with the schema's `invalid_type_error`.
- ApplicationForm.ParseForm models each section as an object or missing. A section given as some other value (a string, an array) is not modelled.
- FormPage.FieldErrorOf: the section-level error for a missing section is not shown as a field error. This is what the page shows too: `getFieldError` reads only field entries.
- FormPage.IssueErrors reduces react-hook-form's error object to a map from (section, field) to an optional message. Its `type` and `ref` are not modelled.
- FormPage.ApplicationPage.GoNext takes the fields to check from the schema section at the current step, rather than looking the paths up. `StepPathsNameSchemaFields` proves the paths name exactly those fields.
- FormPage.ApplicationPage: the page keeps its section list and schema as constants that the constructor fixes to the application form's. The default values are a constructor parameter, because the defaults file is not part of this model.
- FormPage.ApplicationPage.CompleteSubmission: a reply body that is not JSON is modelled as a reply without a message.
- Users.UserDirectory: the audit write never fails the caller (the audit helper swallows its own errors), so every success appends its event.
- Users.UserDirectory.CreateUser: ids and timestamps are parameters. The store's default status (ACTIVE) is written explicitly.
- Users.UserDirectory.CreateUser: a store error during the insert is not modelled.
- Users.UserDirectory.UpdateUser: the re-checks of role and status after the schema cannot fail once the schema has accepted them, so they are not modelled separately.
- Users.ListUsers leaves the order of equal `createdAt` values unspecified, as the store's ordering does. It is a ghost function, not an executable one.
- Users.ServiceError: `ZodError` keeps only the names of the failing keys, not zod's flattened issue structure; a failure of the body as a whole (JSON that is not an object) is listed under the empty name instead of under `formErrors`.
- AdminUsersRoute.Get takes the listing's outcome as a parameter.
- AdminUsersRoute.Post models a body that is not JSON as `None`.
- apps/crm/src/app/api/admin/users/[userId]/route.ts (the PATCH and reset handlers) is not part of this model.
- Presentational components, layouts, the success page, the seed script and the type declarations are not part of this model.
