/**
  The staff serializers (project/smartdine/serializers.py): registration
  validation and creation, and credential validation at login.
 */
module Serializers {
  import opened Wrappers
  import opened Accounts

  /** `min_length` of the registration password field. */
  const MinPasswordLength: nat := 6

  /** `max_length` of the `name` column, which the model serializer enforces. */
  const NameMaxLength: nat := 100

  /** The roles a registering user may ask for: admin is not among them. */
  const RegistrableRoles: seq<string> := [KitchenRole, WaiterRole]

  /** A required request field is missing or empty. */
  predicate Blank(v: Option<string>) {
    v.None? || v.value == []
  }

  datatype RoleError = RoleNotAllowed(allowed: seq<string>)

  /** `StaffRegisterSerializer.validate_role`. */
  function ValidateRole(value: string): (r: Result<string, RoleError>)
    ensures r.Success? <==> value == KitchenRole || value == WaiterRole
    ensures r.Success? ==> r.value == value
    ensures r.Failure? ==> r.error == RoleNotAllowed(RegistrableRoles)
  {
    if value in RegistrableRoles then Success(value) else Failure(RoleNotAllowed(RegistrableRoles))
  }

  /** Admins cannot be created through registration. */
  lemma AdminRoleIsRejected()
    ensures ValidateRole(AdminRole).Failure?
  {
  }

  datatype RegisterInput = RegisterInput(
    name: Option<string>,
    email: Option<string>,
    password: Option<string>,
    role: Option<string>)

  datatype RegisterField = NameField | EmailField | PasswordField | RoleField

  /**
    The fields `StaffRegisterSerializer.is_valid` reports as invalid: name
    required and at most 100 characters, e-mail required and not already
    taken, password required and at least 6 characters, role required and
    accepted by `ValidateRole`.
   */
  function RegisterErrors(users: map<nat, User>, input: RegisterInput): (errs: set<RegisterField>)
    ensures NameField in errs <==> Blank(input.name) || |input.name.value| > NameMaxLength
    ensures EmailField in errs <==>
      Blank(input.email) || exists id :: id in users && users[id].email == input.email.value
    ensures PasswordField in errs <==> input.password.None? || |input.password.value| < MinPasswordLength
    ensures RoleField in errs <==> input.role.None? || ValidateRole(input.role.value).Failure?
  {
    var name := if Blank(input.name) || |input.name.value| > NameMaxLength then {NameField} else {};
    var email := if Blank(input.email) || WithEmail(users, input.email.value) != {} then {EmailField} else {};
    var password := if input.password.None? || |input.password.value| < MinPasswordLength then {PasswordField} else {};
    var role := if input.role.None? || ValidateRole(input.role.value).Failure? then {RoleField} else {};
    name + email + password + role
  }

  /** A password shorter than six characters never passes registration. */
  lemma ShortPasswordRejected(users: map<nat, User>, input: RegisterInput)
    requires input.password.Some? && |input.password.value| < MinPasswordLength
    ensures RegisterErrors(users, input) != {}
  {
  }

  /**
    `StaffRegisterSerializer.create`: the password is replaced by its hash and
    the record is created by the model manager's plain `create`, so every
    other field takes its model default (in particular the account is active).
   */
  function CreateStaff(id: nat, token: Uuid, name: string, email: string, password: string, role: string): (u: User)
    ensures u.id == id && u.name == name && u.email == email && u.role == role
    ensures u.emailVerificationToken == token
    ensures u.password.Hashed?
    ensures forall attempt :: CheckPassword(u.password, attempt) <==> attempt == password
    ensures u.isActive && !u.isStaff && !u.isSuperuser && !u.isBlocked
    ensures !u.isEmailVerified && !u.isApprovedByAdmin
  {
    NewUser(id, token, name, email, role).(password := MakePassword(Some(password)))
  }

  datatype LoginInput = LoginInput(email: Option<string>, password: Option<string>)

  datatype LoginField = LoginEmail | LoginPassword

  datatype LoginError =
    | FieldsRequired(fields: set<LoginField>)  // a field is missing or blank
    | InvalidEmailOrPassword                    // "Invalid email or password."

  /** The `user` block of the login payload. The JWT pair beside it is not modelled. */
  datatype UserSummary = UserSummary(id: nat, name: string, email: string, role: string)

  datatype LoginPayload = LoginPayload(user: UserSummary)

  /** The summary of the row stored under primary key `id`. */
  function Summary(id: nat, u: User): UserSummary {
    UserSummary(id, u.name, u.email, u.role)
  }

  /** `StaffLoginSerializer.validate`, preceded by the field checks of `is_valid`. */
  function ValidateLogin(users: map<nat, User>, attrs: LoginInput): (r: Result<LoginPayload, LoginError>)
    ensures Blank(attrs.email) || Blank(attrs.password) <==> r.Failure? && r.error.FieldsRequired?
    ensures r.Failure? && r.error.FieldsRequired? ==>
      forall f :: f in r.error.fields <==>
        (f == LoginEmail && Blank(attrs.email)) || (f == LoginPassword && Blank(attrs.password))
    ensures r.Success? ==>
      && r.value.user.id in users
      && users[r.value.user.id].email == attrs.email.value
      && CheckPassword(users[r.value.user.id].password, attrs.password.value)
      && r.value.user == Summary(r.value.user.id, users[r.value.user.id])
  {
    if Blank(attrs.email) || Blank(attrs.password) then
      Failure(FieldsRequired(
        (if Blank(attrs.email) then {LoginEmail} else {}) +
        (if Blank(attrs.password) then {LoginPassword} else {})))
    else
      match FirstWithEmail(users, attrs.email.value)
      case Some(id) =>
        if CheckPassword(users[id].password, attrs.password.value) then
          Success(LoginPayload(Summary(id, users[id])))
        else
          Failure(InvalidEmailOrPassword)
      case None => Failure(InvalidEmailOrPassword)
  }

  /**
    With unique e-mails, credentials are accepted exactly when some user has
    that address and the password checks against that user's stored hash.
   */
  lemma LoginAcceptsExactlyMatchingCredentials(users: map<nat, User>, email: string, password: string)
    requires UniqueEmails(users)
    requires email != [] && password != []
    ensures ValidateLogin(users, LoginInput(Some(email), Some(password))).Success? <==>
      exists id :: id in users && users[id].email == email && CheckPassword(users[id].password, password)
    ensures ValidateLogin(users, LoginInput(Some(email), Some(password))).Failure? ==>
      ValidateLogin(users, LoginInput(Some(email), Some(password))).error == InvalidEmailOrPassword
  {
    var r := ValidateLogin(users, LoginInput(Some(email), Some(password)));
    if id :| id in users && users[id].email == email && CheckPassword(users[id].password, password) {
      FirstWithEmailIsTheOne(users, id);
      assert r.Success?;
    }
  }
}
