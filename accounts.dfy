/**
  The staff account record of the restaurant back end (`User` in
  project/smartdine/models.py), its field defaults, the two manager
  constructors `create_user` and `create_superuser`, and the user table they
  write to.
 */
module Accounts {
  import opened Wrappers

  /** The value of a UUID field: the e-mail verification token. */
  type Uuid = nat

  const AdminRole: string := "admin"
  const KitchenRole: string := "kitchen"
  const WaiterRole: string := "waiter"

  /** The roles a stored account may have (`User.ROLE_CHOICES`). */
  const RoleChoices: seq<string> := [AdminRole, KitchenRole, WaiterRole]

  /**
    A stored password. The password hasher is modelled as an injective tag:
    `Hashed(s)` is the hash of the raw password `s`, which is never stored as
    a string. `Unusable` stands for a stored value that no attempt matches:
    the field's empty default, and what setting no password (`None`) stores.
   */
  datatype Password = Unusable | Hashed(digestOf: string)

  /** `set_password` / `make_password`: hash a raw password, or mark it unusable when none is given. */
  function MakePassword(raw: Option<string>): (h: Password)
    ensures h.Unusable? <==> raw.None?
    ensures forall attempt :: CheckPassword(h, attempt) <==> raw == Some(attempt)
  {
    match raw
    case None => Unusable
    case Some(p) => Hashed(p)
  }

  /** `check_password`: does the raw attempt hash to the stored password? An unusable password matches nothing. */
  predicate CheckPassword(h: Password, attempt: string) {
    h.Hashed? && h.digestOf == attempt
  }

  datatype User = User(
    id: nat,
    name: string,
    email: string,
    role: string,
    password: Password,
    isActive: bool,
    isStaff: bool,
    isSuperuser: bool,
    isBlocked: bool,
    isEmailVerified: bool,
    isApprovedByAdmin: bool,
    emailVerificationToken: Uuid)

  /**
    A freshly constructed record with every flag at its field default: active,
    but not staff, not superuser, not blocked, not e-mail verified and not
    approved by an admin. The password field holds its empty default, which
    matches no attempt until a password is set.
   */
  function NewUser(id: nat, token: Uuid, name: string, email: string, role: string): (u: User)
    ensures u.id == id && u.name == name && u.email == email && u.role == role
    ensures u.emailVerificationToken == token && u.password == Unusable
    ensures u.isActive
    ensures !u.isStaff && !u.isSuperuser && !u.isBlocked
    ensures !u.isEmailVerified && !u.isApprovedByAdmin
  {
    User(id, name, email, role, Unusable, true, false, false, false, false, false, token)
  }

  /**
    The boolean fields a caller may pass to `create_user` through
    `extra_fields`; `None` means the keyword was not passed.
   */
  datatype ExtraFields = ExtraFields(
    isActive: Option<bool>,
    isStaff: Option<bool>,
    isSuperuser: Option<bool>,
    isBlocked: Option<bool>,
    isEmailVerified: Option<bool>,
    isApprovedByAdmin: Option<bool>)

  const NoExtraFields: ExtraFields := ExtraFields(None, None, None, None, None, None)

  datatype CreateError =
    | EmailRequired     // ValueError("Email must be provided")
    | ActiveGivenTwice  // `is_active` in extra_fields: the constructor gets the keyword twice (TypeError)
    | DuplicateEmail    // the unique constraint on `email` rejects the save

  /**
    `create_user` up to (not including) the save: the e-mail check, the
    normalisation of the address, the construction with `is_active=False` and
    the extra fields, and `set_password`. `normalize` stands for the manager's
    `normalize_email`.
   */
  function BuildUser(id: nat, token: Uuid, normalize: string -> string, email: string, name: string,
                     role: string := WaiterRole, password: Option<string> := None,
                     extra: ExtraFields := NoExtraFields): (r: Result<User, CreateError>)
    ensures email == [] ==> r == Failure(EmailRequired)
    ensures email != [] && extra.isActive.Some? ==> r == Failure(ActiveGivenTwice)
    ensures email != [] && extra.isActive.None? ==> r.Success?
    ensures r.Success? ==>
      && r.value.id == id && r.value.name == name && r.value.role == role
      && r.value.email == normalize(email) && r.value.emailVerificationToken == token
      && r.value.password == MakePassword(password)
    ensures r.Success? ==> !r.value.isActive
    ensures r.Success? ==>
      && (r.value.isStaff <==> extra.isStaff == Some(true))
      && (r.value.isSuperuser <==> extra.isSuperuser == Some(true))
      && (r.value.isBlocked <==> extra.isBlocked == Some(true))
      && (r.value.isEmailVerified <==> extra.isEmailVerified == Some(true))
      && (r.value.isApprovedByAdmin <==> extra.isApprovedByAdmin == Some(true))
  {
    if email == [] then Failure(EmailRequired)
    else if extra.isActive.Some? then Failure(ActiveGivenTwice)
    else
      var d := NewUser(id, token, name, normalize(email), role);
      Success(d.(
        isActive := false,
        isStaff := extra.isStaff.GetOr(d.isStaff),
        isSuperuser := extra.isSuperuser.GetOr(d.isSuperuser),
        isBlocked := extra.isBlocked.GetOr(d.isBlocked),
        isEmailVerified := extra.isEmailVerified.GetOr(d.isEmailVerified),
        isApprovedByAdmin := extra.isApprovedByAdmin.GetOr(d.isApprovedByAdmin),
        password := MakePassword(password)))
  }

  /** When no role is passed, `create_user` makes a waiter. */
  lemma DefaultRoleIsWaiter(id: nat, token: Uuid, normalize: string -> string, email: string, name: string)
    requires email != []
    ensures BuildUser(id, token, normalize, email, name).Success?
    ensures BuildUser(id, token, normalize, email, name).value.role == WaiterRole
  {
  }

  /** The five flags `create_superuser` raises after `create_user` has saved the record. */
  function Promote(u: User): (s: User)
    ensures s.isStaff && s.isSuperuser && s.isApprovedByAdmin && s.isEmailVerified && s.isActive
    ensures s.id == u.id && s.name == u.name && s.email == u.email && s.role == u.role
    ensures s.password == u.password && s.isBlocked == u.isBlocked
    ensures s.emailVerificationToken == u.emailVerificationToken
  {
    u.(isStaff := true, isSuperuser := true, isApprovedByAdmin := true, isEmailVerified := true, isActive := true)
  }

  /** A superuser is an admin with all five flags raised, whatever extra fields were passed. */
  lemma SuperuserShape(id: nat, token: Uuid, normalize: string -> string, email: string, name: string,
                       password: Option<string>, extra: ExtraFields)
    requires email != [] && extra.isActive.None?
    ensures var b := BuildUser(id, token, normalize, email, name, AdminRole, password, extra);
      && b.Success?
      && Promote(b.value).role == AdminRole
      && Promote(b.value).isStaff && Promote(b.value).isSuperuser
      && Promote(b.value).isApprovedByAdmin && Promote(b.value).isEmailVerified
      && Promote(b.value).isActive
  {
  }

  /** The ids of the users whose stored e-mail is exactly `email` (`filter(email=email)`). */
  function WithEmail(users: map<nat, User>, email: string): (ids: set<nat>)
    ensures forall id :: id in ids <==> id in users && users[id].email == email
  {
    set id | id in users && users[id].email == email
  }

  /** The unique constraint on `email`. */
  predicate UniqueEmails(users: map<nat, User>) {
    forall i, j :: i in users && j in users && users[i].email == users[j].email ==> i == j
  }

  /** Under the unique constraint an address names at most one user. */
  lemma AtMostOneWithEmail(users: map<nat, User>, email: string)
    requires UniqueEmails(users)
    ensures |WithEmail(users, email)| <= 1
  {
    var ids := WithEmail(users, email);
    if ids != {} {
      var i :| i in ids;
      assert ids == {i} by {
        forall j | j in ids ensures j == i { }
      }
    }
  }

  /** The least element of a non-empty set of primary keys. */
  function MinOf(s: set<nat>): (m: nat)
    requires s != {}
    ensures m in s && forall k :: k in s ==> m <= k
  {
    MinExists(s);
    var m :| m in s && forall k :: k in s ==> m <= k; m
  }

  lemma MinExists(s: set<nat>)
    requires s != {}
    ensures exists m :: m in s && forall k :: k in s ==> m <= k
  {
    var w :| w in s;
    var m := LeastFrom(s, 0, w);
  }

  /** Counting up from a lower bound `i` of `s` reaches its least element no later than `w`. */
  lemma {:induction false} LeastFrom(s: set<nat>, i: nat, w: nat) returns (m: nat)
    requires w in s && i <= w && forall k :: k in s ==> i <= k
    ensures m in s && forall k :: k in s ==> m <= k
    decreases w - i
  {
    if i in s {
      m := i;
    } else {
      m := LeastFrom(s, i + 1, w);
    }
  }

  /**
    `filter(email=email).first()`: the model has no default ordering, so the
    first row is the one with the least primary key.
   */
  function FirstWithEmail(users: map<nat, User>, email: string): (r: Option<nat>)
    ensures r.None? <==> forall id :: id in users ==> users[id].email != email
    ensures r.Some? ==> r.value in users && users[r.value].email == email
    ensures r.Some? ==> forall id :: id in users && users[id].email == email ==> r.value <= id
  {
    var ids := WithEmail(users, email);
    if ids == {} then None else Some(MinOf(ids))
  }

  /** Under the unique constraint the first user with an address is the only one. */
  lemma FirstWithEmailIsTheOne(users: map<nat, User>, id: nat)
    requires UniqueEmails(users) && id in users
    ensures FirstWithEmail(users, users[id].email) == Some(id)
  {
  }

  /** The user table: rows keyed by primary key, and the next key the auto field hands out. */
  class AccountStore {
    var users: map<nat, User>
    var nextId: nat

    /** Every row sits under its own key, every key has been handed out, and e-mails are unique. */
    ghost predicate Valid()
      reads this
    {
      && (forall id :: id in users ==> users[id].id == id && id < nextId)
      && UniqueEmails(users)
    }

    constructor ()
      ensures Valid() && users == map[] && nextId == 1
    {
      users := map[];
      nextId := 1;
    }

    /**
      `UserManager.create_user`. On any error nothing is stored; otherwise the
      built record is saved under the next key.
     */
    method CreateUser(token: Uuid, normalize: string -> string, email: string, name: string,
                      role: string := WaiterRole, password: Option<string> := None,
                      extra: ExtraFields := NoExtraFields) returns (r: Result<nat, CreateError>)
      requires Valid()
      modifies this
      ensures Valid()
      ensures var b := BuildUser(old(nextId), token, normalize, email, name, role, password, extra);
        match b
        case Failure(e) => r == Failure(e) && users == old(users) && nextId == old(nextId)
        case Success(u) =>
          if WithEmail(old(users), u.email) != {} then
            r == Failure(DuplicateEmail) && users == old(users) && nextId == old(nextId)
          else
            r == Success(old(nextId)) && users == old(users)[old(nextId) := u] && nextId == old(nextId) + 1
    {
      var b := BuildUser(nextId, token, normalize, email, name, role, password, extra);
      if b.Failure? {
        return Failure(b.error);
      }
      var u := b.value;
      if WithEmail(users, u.email) != {} {
        return Failure(DuplicateEmail);
      }
      users := users[nextId := u];
      r := Success(nextId);
      nextId := nextId + 1;
    }

    /**
      `UserManager.create_superuser`: `create_user` with role admin, then the
      five flags of `Promote` are raised and the record saved again.
     */
    method CreateSuperuser(token: Uuid, normalize: string -> string, email: string, name: string,
                           password: Option<string> := None, extra: ExtraFields := NoExtraFields)
      returns (r: Result<nat, CreateError>)
      requires Valid()
      modifies this
      ensures Valid()
      ensures var b := BuildUser(old(nextId), token, normalize, email, name, AdminRole, password, extra);
        match b
        case Failure(e) => r == Failure(e) && users == old(users) && nextId == old(nextId)
        case Success(u) =>
          if WithEmail(old(users), u.email) != {} then
            r == Failure(DuplicateEmail) && users == old(users) && nextId == old(nextId)
          else
            r == Success(old(nextId)) && users == old(users)[old(nextId) := Promote(u)]
            && nextId == old(nextId) + 1
    {
      r := CreateUser(token, normalize, email, name, AdminRole, password, extra);
      if r.Success? {
        users := users[r.value := Promote(users[r.value])];
      }
    }
  }
}
