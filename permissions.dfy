/** The staff-role permission class (project/smartdine/permissions.py). */
module Permissions {
  import opened Wrappers
  import opened Accounts

  /** What `request.user` holds: nothing, the anonymous user, or an authenticated account. */
  datatype RequestUser = NoUser | AnonymousUser | StaffUser(user: User)

  /**
    `IsStaffRole.has_permission`. `allowedRoles` is the view's `allowed_roles`
    attribute, `None` when the view has none. Without roles (absent or
    empty) any active non-superuser passes; with roles, a member role or a
    superuser passes.
   */
  predicate HasPermission(who: RequestUser, allowedRoles: Option<seq<string>>) {
    if !who.StaffUser? then false
    else if allowedRoles.None? || allowedRoles.value == [] then
      who.user.isActive && !who.user.isSuperuser
    else
      who.user.role in allowedRoles.value || who.user.isSuperuser
  }

  /** A missing or anonymous user is always denied. */
  lemma UnauthenticatedIsDenied(who: RequestUser, allowedRoles: Option<seq<string>>)
    requires !who.StaffUser?
    ensures !HasPermission(who, allowedRoles)
  {
  }

  /** Without roles, access is granted exactly to active non-superusers. */
  lemma WithoutRolesActiveNonSuperusersPass(u: User, allowedRoles: Option<seq<string>>)
    requires allowedRoles.None? || allowedRoles == Some([])
    ensures HasPermission(StaffUser(u), allowedRoles) <==> u.isActive && !u.isSuperuser
  {
  }

  /** With roles, access is granted exactly to members of the list and to superusers, active or not. */
  lemma WithRolesMembersAndSuperusersPass(u: User, roles: seq<string>)
    requires roles != []
    ensures HasPermission(StaffUser(u), Some(roles)) <==> u.role in roles || u.isSuperuser
  {
  }

  /** A superuser is denied by a view without roles and admitted by every view with roles. */
  lemma SuperuserContrast(u: User, roles: seq<string>)
    requires u.isSuperuser
    ensures !HasPermission(StaffUser(u), None)
    ensures !HasPermission(StaffUser(u), Some([]))
    ensures roles != [] ==> HasPermission(StaffUser(u), Some(roles))
  {
  }

  /** Enlarging a non-empty role list never takes access away. */
  lemma EnlargingRolesKeepsAccess(who: RequestUser, roles: seq<string>, more: seq<string>)
    requires roles != []
    requires forall r :: r in roles ==> r in more
    requires HasPermission(who, Some(roles))
    ensures HasPermission(who, Some(more))
  {
    assert roles[0] in more;
  }

  /**
    The empty list is the exception: giving a view its first role can take
    access away from an active waiter.
   */
  lemma FirstRoleCanRevoke()
    ensures var waiter := StaffUser(User(1, "Cy", "cy@example.com", WaiterRole, Unusable,
                                         true, false, false, false, true, true, 1));
      HasPermission(waiter, Some([])) && !HasPermission(waiter, Some([KitchenRole]))
  {
  }
}
