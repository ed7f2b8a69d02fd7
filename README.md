# Staff accounts of the SmartDine restaurant back end, modelled in Dafny

SmartDine is a Django/REST back end for table ordering in a restaurant. This
project models its staff-account core: the `User` record and its field
defaults, the manager constructors `create_user` and `create_superuser`,
staff registration and its validation, e-mail verification, the login
serializer and the login gate, password-reset request and confirmation, the
admin's pending-users list, approval, the pending-requests count, and the
`IsStaffRole` permission.

Layout, one module per source file plus one for properties that span files:

- `wrappers.dfy`: `Option` and `Result`.
- `accounts.dfy` (models.py): the `User` datatype, `NewUser` (field
  defaults), `BuildUser` (`create_user` before the save), `Promote` (the
  flags `create_superuser` raises). The class `AccountStore` is the user
  table: a `map<nat, User>` keyed by primary key and the next auto key. Its
  `Valid()` says every row sits under its own key, every key has been handed
  out, and e-mails are unique (the `unique=True` constraint). Its methods
  `CreateUser` and `CreateSuperuser` write the table.
- `serializers.dfy` (serializers.py): `ValidateRole`, the registration field
  errors, `CreateStaff` (the hashing `create`), and `ValidateLogin`.
- `views.dfy` (views.py): each writing view has a pure specification
  `...Spec` that gives the response and the new table. Its method
  (`StaffRegister`, `VerifyStaffEmail`, `PasswordResetConfirm`, `ApproveUser`)
  updates the store and is proved equal to that specification. The read-only
  views (`StaffLogin`, `RequestPasswordReset`, `GetPendingUsers`,
  `PendingRequestsCount`) are functions.
- `permissions.dfy` (permissions.py): `HasPermission`.
- `lifecycle.dfy`: lemmas that span files, plus a walkthrough: register, be
  refused, verify, be approved, log in.

Modelling choices:
- Responses are `Response(status, message)`, with one message constructor per
  message the views send.
- Exceptions become results:
  - `ValueError` becomes `EmailRequired`.
  - The `TypeError` from `is_active` being passed twice becomes `ActiveGivenTwice`.
  - The `IntegrityError` from the unique constraint becomes `DuplicateEmail`.
  - An uncaught exception becomes status 500.
- Password hashing is an injective tag `Hashed(raw)`. The stored field has
  type `Password`, never `string`, and only the right raw password checks
  against it. `set_password(None)` stores `Unusable`, which matches nothing.
- Parameters stand in for code not visible here:
  - `normalize` stands for `normalize_email`.
  - `checkToken` stands for the reset-token generator's check.
  - `token` is the UUID drawn for `email_verification_token`.
- `.first()` picks the least primary key, because the model declares no ordering.

Where the code differs from a plain reading of its intent:
- Registration creates the account through the model serializer's plain
  `create` (serializers.py:27), not through `create_user`. So a registered
  account takes the model default `is_active=True` and its e-mail is stored
  as given. A `create_user` account is always inactive.
- `verify_staff_email` catches every exception, so a token that matches two
  users is answered 400, like an unknown token.
- An account already marked verified but inactive (possible through
  `create_user`'s extra fields) is answered "already verified" and stays
  inactive.
- views.py:71 reads `user.isBlocked`, which the model does not have (the
  field is `is_blocked`). `StaffLogin` models the intended check.
  `StaffLoginAsWritten` models the code as written. See Findings.

## Model

| member | source | states |
|---|---|---|
| `Accounts.NewUser` | project/smartdine/models.py:47-56 | a freshly constructed record is active, not staff, not superuser, not blocked, not e-mail verified, not approved, with a password that matches nothing |
| `Accounts.MakePassword` | project/smartdine/models.py:24 | no password gives a password that matches nothing; otherwise exactly the given raw password checks against the stored hash |
| `Accounts.BuildUser` | project/smartdine/models.py:13-24 | an empty e-mail fails with EmailRequired; `is_active` among the extra fields fails; otherwise the record is built, always inactive, with the normalised e-mail and the hashed password, and each other flag is true exactly when the extra fields set it |
| `Accounts.DefaultRoleIsWaiter` | project/smartdine/models.py:13 | with no role given, `create_user` makes a waiter |
| `Accounts.Promote` | project/smartdine/models.py:30-34 | staff, superuser, approved, verified and active are raised; identity, role, password and the blocked flag are kept |
| `Accounts.SuperuserShape` | project/smartdine/models.py:28-36 | a superuser has role admin and all five flags raised |
| `Accounts.AccountStore.CreateUser` | project/smartdine/models.py:13-26 | on an empty e-mail, a duplicate `is_active` or an e-mail already taken nothing is stored; otherwise the built record is stored under the next key and the table stays valid |
| `Accounts.AccountStore.CreateSuperuser` | project/smartdine/models.py:28-36 | the same failures as `create_user`; otherwise the promoted admin record is stored under the next key |
| `Accounts.AtMostOneWithEmail` | project/smartdine/models.py:49 | under the unique constraint at most one user has a given address |
| `Accounts.FirstWithEmail` | project/smartdine/serializers.py:41 | `filter(email).first()` finds nothing exactly when no user has the address; otherwise it finds the user with that address and the least key |
| `Accounts.FirstWithEmailIsTheOne` | project/smartdine/serializers.py:41 | under the unique constraint the first user with a user's address is that user |
| `Serializers.ValidateRole` | project/smartdine/serializers.py:19-23 | accepts `kitchen` and `waiter`, returning the value unchanged; rejects every other value with the allowed list |
| `Serializers.AdminRoleIsRejected` | project/smartdine/serializers.py:20-22 | `admin` cannot be chosen at registration |
| `Serializers.RegisterErrors` | project/smartdine/serializers.py:12-23 | the name field fails iff it is missing, blank or over 100 characters; the e-mail field iff missing, blank or taken; the password field iff missing or under 6 characters; the role field iff missing or refused by `validate_role` |
| `Serializers.ShortPasswordRejected` | project/smartdine/serializers.py:13 | a password shorter than 6 characters never passes registration |
| `Serializers.CreateStaff` | project/smartdine/serializers.py:25-28 | the stored password is a hash that only the supplied password checks against; every flag is the model default, so the account is active but unverified and unapproved |
| `Serializers.ValidateLogin` | project/smartdine/serializers.py:37-55 | a blank e-mail or password fails with exactly the blank fields; a success names a stored user with that address whose password checks, and its payload carries exactly that user's id, name, e-mail and role |
| `Serializers.LoginAcceptsExactlyMatchingCredentials` | project/smartdine/serializers.py:41-55 | with unique e-mails, credentials succeed iff some user has the address and the password checks; otherwise the error is "Invalid email or password" |
| `Views.RegisterSpec` | project/smartdine/views.py:26-36 | invalid input gives 400 with the failing fields and no change; valid input gives 201 and adds exactly the created account under the next key |
| `Views.StaffRegister` | project/smartdine/views.py:26-36 | the store takes the new table of `RegisterSpec`, the next key advances only on 201, and the table stays valid |
| `Views.MarkEmailVerified` | project/smartdine/views.py:48-49 | verification raises `is_email_verified` and `is_active` and changes no other field |
| `Views.VerifyEmailSpec` | project/smartdine/views.py:43-53 | a token matching no user or several gives 400 and no change; status is 200 iff exactly one user matches; an already verified user gets "already verified" and no change; otherwise that user becomes verified and active; no other user changes |
| `Views.VerifyStaffEmail` | project/smartdine/views.py:43-53 | the store takes the new table of `VerifyEmailSpec` and stays valid |
| `Views.VerifyIsIdempotent` | project/smartdine/views.py:46-50 | repeating verification with the same token changes nothing more; a repeated success reports "already verified" |
| `Views.LoginRefusal` | project/smartdine/views.py:67-72 | an unverified user is refused as unverified whatever else holds; then a non-admin not approved is refused; then a blocked user; nobody is refused iff verified, admin or approved, and not blocked |
| `Views.StaffLogin` | project/smartdine/views.py:61-74 | credential errors give 400; an admissible user gets 200 with the payload; any other user gets 401 with the first failing check |
| `Views.LoginSucceedsExactlyForAdmissibleCredentials` | project/smartdine/views.py:61-74 | with unique e-mails, login gives 200 iff some admissible user has the address and the password |
| `Views.StaffLoginAsWritten` | project/smartdine/views.py:71 | as written, no login ever gives 200: every user past the first two checks gets 500 |
| `Views.MisspeltBlockedFlagCounterexample` | project/smartdine/views.py:71 | a verified, approved, unblocked waiter is logged in by the intended gate but gets 500 as written |
| `Views.RequestPasswordReset` | project/smartdine/views.py:84-95 | a missing or empty address gives 400; an unknown address gives 404; 200 with the link sent iff exactly one user has the address |
| `Views.ResetRequestNeverFailsInternally` | project/smartdine/views.py:89 | under the unique constraint a reset request is answered 200, 400 or 404, never 500 |
| `Views.ResetConfirmSpec` | project/smartdine/views.py:100-117 | a missing field gives 400; mismatched fields give 400; an unknown user gives 404; a rejected token gives 400 "Invalid or expired token."; 200 iff the fields agree, the user exists and the token checks; anything else changes nothing; on 200 only that user's password changes, to one only the new password checks against |
| `Views.PasswordResetConfirm` | project/smartdine/views.py:100-117 | the store takes the new table of `ResetConfirmSpec` and stays valid |
| `Views.PendingIds` | project/smartdine/views.py:126 | the pending list holds exactly the users with e-mail verified and not approved |
| `Views.CountedIds` | project/smartdine/views.py:163-166 | the pending count counts exactly the users not approved and not superusers |
| `Views.GetPendingUsers` | project/smartdine/views.py:122-138 | a non-admin caller gets 403; an admin gets 200 and one entry per pending user carrying that user's fields, and nothing else |
| `Views.PendingRequestsCount` | project/smartdine/views.py:159-166 | any caller gets 200 and the number of unapproved non-superusers, which is at most the number of users |
| `Views.PendingFiltersDiffer` | project/smartdine/views.py:126-166 | an unverified applicant is counted but not listed; a verified unapproved superuser is listed but not counted |
| `Views.ListedNonSuperusersAreCounted` | project/smartdine/views.py:126-166 | every listed non-superuser is counted, so there are at most as many as the count |
| `Views.Approve` | project/smartdine/views.py:152 | approval raises `is_approved_by_admin` and changes no other field |
| `Views.ApproveSpec` | project/smartdine/views.py:144-154 | a non-admin caller gets 403 and no change; an unknown key gets 404; an approved user gets 200 and no change; otherwise 200 and exactly that user becomes approved |
| `Views.ApproveUser` | project/smartdine/views.py:144-154 | the store takes the new table of `ApproveSpec` and stays valid |
| `Views.ApproveIsIdempotent` | project/smartdine/views.py:149-150 | approving twice is approving once; the second call reports "already approved" |
| `Views.ApprovalLeavesPending` | project/smartdine/views.py:144-154 | approval takes exactly that user off the pending list and out of the count, and the count drops by one when the user was counted |
| `Views.VerificationJoinsPendingList` | project/smartdine/views.py:43-53 | verification never changes the pending count and puts the verified unapproved user on the pending list |
| `Views.NewAccountsAndTheCount` | project/smartdine/views.py:163-166 | saving a new unapproved non-superuser raises the count by one; saving a promoted superuser leaves it unchanged |
| `Permissions.UnauthenticatedIsDenied` | project/smartdine/permissions.py:6-7 | a missing or anonymous user is always denied |
| `Permissions.WithoutRolesActiveNonSuperusersPass` | project/smartdine/permissions.py:8-10 | with no roles, absent or empty, access is granted iff the user is active and not a superuser |
| `Permissions.WithRolesMembersAndSuperusersPass` | project/smartdine/permissions.py:11 | with a non-empty role list, access is granted iff the role is listed or the user is a superuser |
| `Permissions.SuperuserContrast` | project/smartdine/permissions.py:9-11 | a superuser is denied without roles and admitted with any non-empty role list |
| `Permissions.EnlargingRolesKeepsAccess` | project/smartdine/permissions.py:11 | enlarging a non-empty role list never revokes access |
| `Permissions.FirstRoleCanRevoke` | project/smartdine/permissions.py:9-11 | giving a role-less view its first role can revoke an active waiter's access |
| `Lifecycle.RegisteredAccountMustVerify` | project/smartdine/views.py:67-68 | a freshly registered account is active but refused at login as unverified |
| `Lifecycle.VerifiedAndApprovedIsAdmitted` | project/smartdine/views.py:67-72 | after verification and approval an unblocked account passes the gate; an admin needs verification only; a non-admin who is verified but not approved is refused as not approved |
| `Lifecycle.CreatedAccountsNeedVerification` | project/smartdine/models.py:17-22 | a `create_user` account is denied by views without roles; once verified, a non-superuser is admitted |
| `Lifecycle.SuperuserAccess` | project/smartdine/models.py:28-36 | a created superuser passes the login gate iff not blocked, is denied by views without roles and admitted by views with roles |
| `Lifecycle.ResetThenLogin` | project/smartdine/views.py:112-115 | after a successful reset the new password passes login validation for that user's address, and the payload names that user |
| `Lifecycle.OnboardingWalkthrough` | project/smartdine/views.py:26-74 | a registered waiter is refused as unverified, then after verification and approval logs in with 200 |

## Left out

- Token minting: the JWT refresh/access pair in the login payload is not modelled. The payload carries the user block only.
- The reset-token generator and `normalize_email`: these are library code. They are taken as the parameters `checkToken` and `normalize`.
- The verification token and the reset-link e-mail are left out. The token is drawn at random in the source and is a parameter here. Sending the mail, and its failure, is I/O. A 500 from a failing `send_mail` is not modelled.
- Authentication (`IsAuthenticated`, the token backend): each caller is given as a `User` value. An unauthenticated request to the approval, pending-list or pending-count views is not modelled.
- Field-level format checks of the serializers are not modelled: `EmailField` address syntax and whitespace trimming of character fields. Only presence, blankness and the length and uniqueness rules are.
- `Serializers.RegisterErrors`: the e-mail column's 254-character limit is not checked.
- `Accounts.BuildUser`: extra fields other than the six boolean flags are not modelled. These are unknown keywords, `id`, and the verification token. Nor is `role` passed through `create_superuser`'s extra fields (a `TypeError` in the source).
- `Accounts.AccountStore.CreateUser`: a failed insert leaves the next key unchanged. A database sequence may skip the key.
- Concurrency: two requests racing on the unique e-mail, or on one record, are not modelled. Each view runs to completion on its own.
- Malformed URL tokens are not modelled: a verification token that is not a UUID, or a non-string password in the request body. The token is a number and the fields are strings or missing.
- The admin site (admin.py), routing (urls.py), `Table.save` with its QR-code image, and the order, cart, menu, waiter-request and feedback models carry no account logic and are not part of this model.

## Findings

| source | as written | input that shows it | evidently intended | confidence | as-written member | corrected member |
|---|---|---|---|---|---|---|
| project/smartdine/views.py:71 | the blocked check reads `user.isBlocked`, which the User model does not define (the field is `is_blocked`, models.py:53), so it raises AttributeError and the request is answered 500 | a verified, approved, unblocked waiter logging in with correct credentials | refuse with 401 exactly when `is_blocked` is set, and answer 200 otherwise | high; follows from the field list, not executed | `Views.StaffLoginAsWritten` (with `Views.MisspeltBlockedFlagCounterexample`) | `Views.StaffLogin` (with `Views.LoginSucceedsExactlyForAdmissibleCredentials`) |
