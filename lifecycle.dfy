/**
  The life of a staff account across the files: registration or creation,
  e-mail verification, admin approval, login, password reset and the
  permission check.
 */
module Lifecycle {
  import opened Wrappers
  import opened Accounts
  import opened Serializers
  import opened Views
  import opened Permissions

  /** A registered account is active by default but is refused at login until its e-mail is verified. */
  lemma RegisteredAccountMustVerify(id: nat, token: Uuid, name: string, email: string, password: string, role: string)
    ensures var u := CreateStaff(id, token, name, email, password, role);
      u.isActive && LoginRefusal(u) == Some(EmailNotVerified)
  {
  }

  /**
    Verification and approval admit any unblocked account; an admin needs
    verification only.
   */
  lemma VerifiedAndApprovedIsAdmitted(u: User)
    requires !u.isBlocked
    ensures LoginRefusal(Approve(MarkEmailVerified(u))).None?
    ensures u.role == AdminRole ==> LoginRefusal(MarkEmailVerified(u)).None?
    ensures u.role != AdminRole && !u.isApprovedByAdmin ==>
      LoginRefusal(MarkEmailVerified(u)) == Some(NotApprovedByAdmin)
  {
  }

  /**
    An account made by `create_user` is inactive, so views without roles deny
    it; verification activates it and, for a non-superuser, grants access.
   */
  lemma CreatedAccountsNeedVerification(id: nat, token: Uuid, normalize: string -> string, email: string,
                                         name: string, role: string, password: Option<string>, extra: ExtraFields)
    requires BuildUser(id, token, normalize, email, name, role, password, extra).Success?
    ensures var u := BuildUser(id, token, normalize, email, name, role, password, extra).value;
      && !HasPermission(StaffUser(u), None)
      && (!u.isSuperuser ==> HasPermission(StaffUser(MarkEmailVerified(u)), None))
  {
  }

  /**
    A superuser made by `create_superuser` passes the login gate unless
    blocked through the extra fields, passes every view with roles, and is
    denied by every view without roles.
   */
  lemma SuperuserAccess(id: nat, token: Uuid, normalize: string -> string, email: string, name: string,
                        password: Option<string>, extra: ExtraFields, roles: seq<string>)
    requires email != [] && extra.isActive.None?
    ensures var s := Promote(BuildUser(id, token, normalize, email, name, AdminRole, password, extra).value);
      && (LoginRefusal(s).None? <==> extra.isBlocked != Some(true))
      && !HasPermission(StaffUser(s), None)
      && (roles != [] ==> HasPermission(StaffUser(s), Some(roles)))
  {
  }

  /**
    After a successful reset, the new password passes credential validation
    for that user's address, and the payload names that user.
   */
  lemma ResetThenLogin(users: map<nat, User>, userId: nat, token: string, password: string,
                        checkToken: (User, string) -> bool)
    requires UniqueEmails(users)
    requires ResetConfirmSpec(users, userId, token, Some(password), Some(password), checkToken).response.status == 200
    requires users[userId].email != []
    ensures var after := ResetConfirmSpec(users, userId, token, Some(password), Some(password), checkToken).users;
      var r := ValidateLogin(after, LoginInput(Some(users[userId].email), Some(password)));
      r.Success? && r.value.user.id == userId
  {
    var after := ResetConfirmSpec(users, userId, token, Some(password), Some(password), checkToken).users;
    assert after[userId].email == users[userId].email;
    assert UniqueEmails(after) by {
      forall i, j | i in after && j in after && after[i].email == after[j].email
        ensures i == j
      {
        assert after[i].email == users[i].email && after[j].email == users[j].email;
      }
    }
    FirstWithEmailIsTheOne(after, userId);
  }

  /**
    A waiter registers, is refused before verification, verifies, is
    approved by an admin and then logs in.
   */
  method OnboardingWalkthrough() returns (before: Response, after: Response)
    ensures before == Response(401, LoginRejected(EmailNotVerified))
    ensures after.status == 200
  {
    var store := new AccountStore();
    var input := RegisterInput(Some("Ann"), Some("ann@example.com"), Some("secret1"), Some(WaiterRole));
    assert RegisterErrors(store.users, input) == {};
    var registered := StaffRegister(store, input, 42);
    assert store.users == map[1 := CreateStaff(1, 42, "Ann", "ann@example.com", "secret1", WaiterRole)];
    var attrs := LoginInput(Some("ann@example.com"), Some("secret1"));
    assert WithEmail(store.users, "ann@example.com") == {1};
    before := StaffLogin(store.users, attrs);

    assert WithToken(store.users, 42) == {1};
    var verified := VerifyStaffEmail(store, 42);
    var admin := User(9, "Root", "root@example.com", AdminRole, Unusable, true, true, true, false, true, true, 9);
    var approved := ApproveUser(store, admin, 1);
    assert WithEmail(store.users, "ann@example.com") == {1};
    after := StaffLogin(store.users, attrs);
  }
}
