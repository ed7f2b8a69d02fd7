/**
  The staff account views (project/smartdine/views.py): registration, e-mail
  verification, login, password reset, the admin's pending list, approval and
  the pending count. Each view that writes to the user table has a pure
  specification (`...Spec`, giving the response and the new table) against
  which its method is proved; the read-only views are functions.
 */
module Views {
  import opened Wrappers
  import opened Accounts
  import opened Serializers

  /** Why the login gate turns a user with valid credentials away. */
  datatype Refusal = EmailNotVerified | NotApprovedByAdmin | AccountBlocked

  /** One row of the admin's pending-users list. */
  datatype PendingEntry = PendingEntry(
    id: nat, name: string, email: string, role: string,
    isEmailVerified: bool, isApprovedByAdmin: bool)

  /** The body of a response, one constructor per message the views send. */
  datatype Message =
    | Registered
    | RegistrationInvalid(fields: set<RegisterField>)
    | EmailAlreadyVerified
    | EmailVerified
    | InvalidOrExpiredToken
    | LoginInvalid(error: LoginError)
    | LoginRejected(reason: Refusal)
    | LoginSucceeded(payload: LoginPayload)
    | InternalServerError
    | EmailIsRequired
    | ResetLinkSent
    | UserDoesNotExist
    | BothPasswordFieldsRequired
    | PasswordsDoNotMatch
    | PasswordResetSuccessful
    | NotFound
    | OnlyAdminsCanViewPending
    | PendingUsersList(entries: set<PendingEntry>)
    | OnlyAdminsCanApprove
    | AlreadyApproved
    | ApprovedUser(name: string)
    | PendingCount(count: nat)

  datatype Response = Response(status: nat, message: Message)

  /** What a writing view returns, and the user table it leaves behind. */
  datatype Transition = Transition(response: Response, users: map<nat, User>)

  lemma SingletonMembers(s: set<nat>, a: nat, b: nat)
    requires |s| == 1 && a in s && b in s
    ensures a == b
  {
    var x :| x in s;
    assert |s - {x}| == 0;
    assert a !in s - {x} && b !in s - {x};
  }

  lemma {:induction false} SubsetCardinality(a: set<nat>, b: set<nat>)
    requires a <= b
    ensures |a| <= |b|
  {
    if a != {} {
      var x :| x in a;
      SubsetCardinality(a - {x}, b - {x});
    }
  }

  // ---------------------------------------------------------------------
  // Registration
  // ---------------------------------------------------------------------

  /**
    `StaffRegisterView.post`: invalid input is answered with 400 and the
    failing fields; valid input creates the account under the next key and is
    answered with 201 (a failure to send the verification mail is swallowed).
   */
  function RegisterSpec(users: map<nat, User>, nextId: nat, input: RegisterInput, token: Uuid): (t: Transition)
    ensures RegisterErrors(users, input) != {} ==>
      t == Transition(Response(400, RegistrationInvalid(RegisterErrors(users, input))), users)
    ensures RegisterErrors(users, input) == {} ==>
      && t.response == Response(201, Registered)
      && t.users.Keys == users.Keys + {nextId}
      && t.users[nextId] == CreateStaff(nextId, token, input.name.value, input.email.value,
                                        input.password.value, input.role.value)
      && forall id :: id in users && id != nextId ==> t.users[id] == users[id]
  {
    var errs := RegisterErrors(users, input);
    if errs != {} then
      Transition(Response(400, RegistrationInvalid(errs)), users)
    else
      var u := CreateStaff(nextId, token, input.name.value, input.email.value, input.password.value, input.role.value);
      Transition(Response(201, Registered), users[nextId := u])
  }

  method StaffRegister(store: AccountStore, input: RegisterInput, token: Uuid) returns (resp: Response)
    requires store.Valid()
    modifies store
    ensures store.Valid()
    ensures var t := RegisterSpec(old(store.users), old(store.nextId), input, token);
      resp == t.response && store.users == t.users
    ensures store.nextId == old(store.nextId) + (if resp.status == 201 then 1 else 0)
  {
    var t := RegisterSpec(store.users, store.nextId, input, token);
    if t.response.status == 201 {
      store.users := t.users;
      store.nextId := store.nextId + 1;
    }
    resp := t.response;
  }

  // ---------------------------------------------------------------------
  // E-mail verification
  // ---------------------------------------------------------------------

  /** The ids of the users carrying verification token `token`. */
  function WithToken(users: map<nat, User>, token: Uuid): (ids: set<nat>)
    ensures forall id :: id in ids <==> id in users && users[id].emailVerificationToken == token
  {
    set id | id in users && users[id].emailVerificationToken == token
  }

  /** Verification raises `is_email_verified` and `is_active` and touches no other field. */
  function MarkEmailVerified(u: User): (v: User)
    ensures v.isEmailVerified && v.isActive
    ensures v.(isEmailVerified := u.isEmailVerified, isActive := u.isActive) == u
  {
    u.(isEmailVerified := true, isActive := true)
  }

  /**
    `verify_staff_email`: a token that matches no user, or more than one, is
    answered with 400 and changes nothing; an already verified user is
    answered "already verified" and left alone; otherwise the user is
    verified and activated.
   */
  function VerifyEmailSpec(users: map<nat, User>, token: Uuid): (t: Transition)
    ensures |WithToken(users, token)| != 1 ==>
      t == Transition(Response(400, InvalidOrExpiredToken), users)
    ensures t.response.status == 200 <==> |WithToken(users, token)| == 1
    ensures t.users.Keys == users.Keys
    ensures forall id :: id in users && id !in WithToken(users, token) ==> t.users[id] == users[id]
    ensures forall id :: id in WithToken(users, token) && |WithToken(users, token)| == 1 ==>
      && t.users[id].isEmailVerified
      && (users[id].isEmailVerified ==>
            t.response.message == EmailAlreadyVerified && t.users[id] == users[id])
      && (!users[id].isEmailVerified ==>
            && t.response.message == EmailVerified && t.users[id].isActive
            && t.users[id] == MarkEmailVerified(users[id]))
  {
    var ids := WithToken(users, token);
    if |ids| != 1 then
      Transition(Response(400, InvalidOrExpiredToken), users)
    else
      var id := MinOf(ids);
      assert forall other :: other in ids ==> other == id by {
        forall other | other in ids ensures other == id { SingletonMembers(ids, other, id); }
      }
      if users[id].isEmailVerified then
        Transition(Response(200, EmailAlreadyVerified), users)
      else
        Transition(Response(200, EmailVerified), users[id := MarkEmailVerified(users[id])])
  }

  method VerifyStaffEmail(store: AccountStore, token: Uuid) returns (resp: Response)
    requires store.Valid()
    modifies store
    ensures store.Valid() && store.nextId == old(store.nextId)
    ensures var t := VerifyEmailSpec(old(store.users), token);
      resp == t.response && store.users == t.users
  {
    var t := VerifyEmailSpec(store.users, token);
    store.users := t.users;
    resp := t.response;
  }

  /**
    Verification is idempotent: repeating it with the same token changes
    nothing more, and a repeat of a successful verification reports
    "already verified".
   */
  lemma VerifyIsIdempotent(users: map<nat, User>, token: Uuid)
    ensures var t1 := VerifyEmailSpec(users, token);
      var t2 := VerifyEmailSpec(t1.users, token);
      && t2.users == t1.users
      && (t1.response.status == 200 ==> t2.response == Response(200, EmailAlreadyVerified))
      && (t1.response.status != 200 ==> t2 == t1)
  {
    var t1 := VerifyEmailSpec(users, token);
    assert WithToken(t1.users, token) == WithToken(users, token);
  }

  // ---------------------------------------------------------------------
  // Login
  // ---------------------------------------------------------------------

  /** The reference rule: who may log in with valid credentials. */
  predicate Admissible(u: User) {
    u.isEmailVerified && (u.role == AdminRole || u.isApprovedByAdmin) && !u.isBlocked
  }

  /**
    The three checks of `StaffLoginView.post`, in their order: an unverified
    user is refused as such whatever the other flags; then a non-admin not
    yet approved; then a blocked user. The source reads the blocked flag
    through a misspelt attribute; this is the check as intended, on
    `is_blocked` (see `StaffLoginAsWritten`).
   */
  function LoginRefusal(u: User): (r: Option<Refusal>)
    ensures !u.isEmailVerified ==> r == Some(EmailNotVerified)
    ensures u.isEmailVerified && u.role != AdminRole && !u.isApprovedByAdmin ==> r == Some(NotApprovedByAdmin)
    ensures u.isEmailVerified && (u.role == AdminRole || u.isApprovedByAdmin) && u.isBlocked ==>
      r == Some(AccountBlocked)
    ensures r.None? <==> Admissible(u)
  {
    if !u.isEmailVerified then Some(EmailNotVerified)
    else if u.role != AdminRole && !u.isApprovedByAdmin then Some(NotApprovedByAdmin)
    else if u.isBlocked then Some(AccountBlocked)
    else None
  }

  /** `StaffLoginView.post`: credential errors give 400, gate refusals 401, success 200 with the payload. */
  function StaffLogin(users: map<nat, User>, attrs: LoginInput): (r: Response)
    ensures ValidateLogin(users, attrs).Failure? ==>
      r == Response(400, LoginInvalid(ValidateLogin(users, attrs).error))
    ensures ValidateLogin(users, attrs).Success? ==>
      var id := ValidateLogin(users, attrs).value.user.id;
      && (Admissible(users[id]) ==> r == Response(200, LoginSucceeded(ValidateLogin(users, attrs).value)))
      && (!Admissible(users[id]) ==> r == Response(401, LoginRejected(LoginRefusal(users[id]).value)))
  {
    match ValidateLogin(users, attrs)
    case Failure(e) => Response(400, LoginInvalid(e))
    case Success(payload) =>
      match LoginRefusal(users[payload.user.id])
      case Some(reason) => Response(401, LoginRejected(reason))
      case None => Response(200, LoginSucceeded(payload))
  }

  /**
    With unique e-mails, login succeeds exactly for an address and password
    that belong to one admissible user, and the payload describes that user.
   */
  lemma LoginSucceedsExactlyForAdmissibleCredentials(
    users: map<nat, User>, email: string, password: string)
    requires UniqueEmails(users)
    requires email != [] && password != []
    ensures StaffLogin(users, LoginInput(Some(email), Some(password))).status == 200 <==>
      exists id :: id in users && users[id].email == email
        && CheckPassword(users[id].password, password) && Admissible(users[id])
  {
    var attrs := LoginInput(Some(email), Some(password));
    LoginAcceptsExactlyMatchingCredentials(users, email, password);
    var v := ValidateLogin(users, attrs);
    if v.Success? {
      var k := v.value.user.id;
      forall id | id in users && users[id].email == email
        ensures id == k
      { }
    }
  }

  /**
    `StaffLoginView.post` as written: its third check reads `user.isBlocked`,
    an attribute the User model does not have (the field is `is_blocked`),
    so every user who passes the first two checks gets an AttributeError,
    answered with 500.
   */
  function StaffLoginAsWritten(users: map<nat, User>, attrs: LoginInput): (r: Response)
    ensures r.status != 200
    ensures ValidateLogin(users, attrs).Success? &&
      !LoginRefusal(users[ValidateLogin(users, attrs).value.user.id]).Some?
      ==> r == Response(500, InternalServerError)
  {
    match ValidateLogin(users, attrs)
    case Failure(e) => Response(400, LoginInvalid(e))
    case Success(payload) =>
      var u := users[payload.user.id];
      if !u.isEmailVerified then Response(401, LoginRejected(EmailNotVerified))
      else if u.role != AdminRole && !u.isApprovedByAdmin then Response(401, LoginRejected(NotApprovedByAdmin))
      else Response(500, InternalServerError)
  }

  /** A verified, approved, unblocked waiter: logged in by the intended gate, a 500 as written. */
  lemma MisspeltBlockedFlagCounterexample()
    ensures var u := User(1, "Ann", "ann@example.com", WaiterRole, Hashed("secret1"),
                          true, false, false, false, true, true, 7);
      var users := map[1 := u];
      var attrs := LoginInput(Some("ann@example.com"), Some("secret1"));
      && StaffLogin(users, attrs).status == 200
      && StaffLoginAsWritten(users, attrs) == Response(500, InternalServerError)
  {
    var u := User(1, "Ann", "ann@example.com", WaiterRole, Hashed("secret1"),
                  true, false, false, false, true, true, 7);
    var users := map[1 := u];
    assert WithEmail(users, "ann@example.com") == {1};
    assert FirstWithEmail(users, "ann@example.com") == Some(1);
  }

  // ---------------------------------------------------------------------
  // Password reset
  // ---------------------------------------------------------------------

  /**
    `RequestPasswordResetView.post`: no address gives 400, an unknown address
    404, a known one 200 (the mail with the reset link is sent). Two users
    with one address would make the lookup raise, answered with 500.
   */
  function RequestPasswordReset(users: map<nat, User>, email: Option<string>): (r: Response)
    ensures Blank(email) ==> r == Response(400, EmailIsRequired)
    ensures !Blank(email) && (forall id :: id in users ==> users[id].email != email.value) ==>
      r == Response(404, UserDoesNotExist)
    ensures r.status == 200 <==> !Blank(email) && |WithEmail(users, email.value)| == 1
    ensures r.status == 200 ==> r.message == ResetLinkSent
  {
    if Blank(email) then Response(400, EmailIsRequired)
    else
      var n := |WithEmail(users, email.value)|;
      if n == 0 then Response(404, UserDoesNotExist)
      else if n == 1 then Response(200, ResetLinkSent)
      else Response(500, InternalServerError)
  }

  /** Under the unique constraint a reset request is never answered with 500. */
  lemma ResetRequestNeverFailsInternally(users: map<nat, User>, email: Option<string>)
    requires UniqueEmails(users)
    ensures RequestPasswordReset(users, email).status in {200, 400, 404}
  {
    if !Blank(email) {
      AtMostOneWithEmail(users, email.value);
    }
  }

  /**
    `PasswordResetConfirmView.post`: both fields are required and must agree
    (400 otherwise), the user must exist (404), and the password changes only
    when `checkToken` (the token generator's check) accepts the token; a
    rejected token gives 400 and changes nothing.
   */
  function ResetConfirmSpec(users: map<nat, User>, userId: nat, token: string,
                            password: Option<string>, confirm: Option<string>,
                            checkToken: (User, string) -> bool): (t: Transition)
    ensures Blank(password) || Blank(confirm) ==>
      t == Transition(Response(400, BothPasswordFieldsRequired), users)
    ensures !Blank(password) && !Blank(confirm) && password != confirm ==>
      t == Transition(Response(400, PasswordsDoNotMatch), users)
    ensures !Blank(password) && password == confirm && userId !in users ==>
      t == Transition(Response(404, NotFound), users)
    ensures !Blank(password) && password == confirm && userId in users && !checkToken(users[userId], token) ==>
      t == Transition(Response(400, InvalidOrExpiredToken), users)
    ensures t.response.status == 200 <==>
      !Blank(password) && password == confirm && userId in users && checkToken(users[userId], token)
    ensures t.response.status != 200 ==> t.users == users
    ensures t.response.status == 200 ==>
      && t.response.message == PasswordResetSuccessful
      && t.users.Keys == users.Keys
      && (forall id :: id in users && id != userId ==> t.users[id] == users[id])
      && t.users[userId].(password := users[userId].password) == users[userId]
      && (forall attempt :: CheckPassword(t.users[userId].password, attempt) <==> attempt == password.value)
  {
    if Blank(password) || Blank(confirm) then
      Transition(Response(400, BothPasswordFieldsRequired), users)
    else if password != confirm then
      Transition(Response(400, PasswordsDoNotMatch), users)
    else if userId !in users then
      Transition(Response(404, NotFound), users)
    else if checkToken(users[userId], token) then
      Transition(Response(200, PasswordResetSuccessful),
                 users[userId := users[userId].(password := MakePassword(password))])
    else
      Transition(Response(400, InvalidOrExpiredToken), users)
  }

  method PasswordResetConfirm(store: AccountStore, userId: nat, token: string,
                              password: Option<string>, confirm: Option<string>,
                              checkToken: (User, string) -> bool) returns (resp: Response)
    requires store.Valid()
    modifies store
    ensures store.Valid() && store.nextId == old(store.nextId)
    ensures var t := ResetConfirmSpec(old(store.users), userId, token, password, confirm, checkToken);
      resp == t.response && store.users == t.users
  {
    var t := ResetConfirmSpec(store.users, userId, token, password, confirm, checkToken);
    store.users := t.users;
    resp := t.response;
  }

  // ---------------------------------------------------------------------
  // Pending users, approval, pending count
  // ---------------------------------------------------------------------

  /** The users the admin's list shows: e-mail verified and not yet approved. */
  function PendingIds(users: map<nat, User>): (ids: set<nat>)
    ensures forall id :: id in ids <==> id in users && users[id].isEmailVerified && !users[id].isApprovedByAdmin
  {
    set id | id in users && users[id].isEmailVerified && !users[id].isApprovedByAdmin
  }

  /** The users the pending count counts: not approved and not superusers, verified or not. */
  function CountedIds(users: map<nat, User>): (ids: set<nat>)
    ensures forall id :: id in ids <==> id in users && !users[id].isApprovedByAdmin && !users[id].isSuperuser
  {
    set id | id in users && !users[id].isApprovedByAdmin && !users[id].isSuperuser
  }

  function EntryOf(id: nat, u: User): PendingEntry {
    PendingEntry(id, u.name, u.email, u.role, u.isEmailVerified, u.isApprovedByAdmin)
  }

  /** `get_pending_users`: admins get the pending list, anyone else 403. */
  function GetPendingUsers(caller: User, users: map<nat, User>): (r: Response)
    ensures caller.role != AdminRole ==> r == Response(403, OnlyAdminsCanViewPending)
    ensures caller.role == AdminRole ==> r.status == 200 && r.message.PendingUsersList?
    ensures caller.role == AdminRole ==>
      forall e :: e in r.message.entries ==>
        e.id in PendingIds(users) && e == EntryOf(e.id, users[e.id])
    ensures caller.role == AdminRole ==>
      forall id :: id in PendingIds(users) ==> EntryOf(id, users[id]) in r.message.entries
  {
    if caller.role != AdminRole then Response(403, OnlyAdminsCanViewPending)
    else
      Response(200, PendingUsersList(
        set id | id in users && users[id].isEmailVerified && !users[id].isApprovedByAdmin :: EntryOf(id, users[id])))
  }

  /** `pending_requests_count`: open to any authenticated user, no role check. */
  function PendingRequestsCount(users: map<nat, User>): (r: Response)
    ensures r.status == 200 && r.message.PendingCount?
    ensures r.message.count == |CountedIds(users)| && r.message.count <= |users.Keys|
  {
    CountedSubsetOfUsers(users);
    Response(200, PendingCount(|CountedIds(users)|))
  }

  lemma CountedSubsetOfUsers(users: map<nat, User>)
    ensures |CountedIds(users)| <= |users.Keys|
  {
    SubsetCardinality(CountedIds(users), users.Keys);
  }

  /**
    The two pending filters differ: an unverified applicant is counted but
    not listed, and a verified superuser awaiting approval is listed but not
    counted.
   */
  lemma PendingFiltersDiffer()
    ensures var applicant := User(1, "Bo", "bo@example.com", KitchenRole, Unusable,
                                  false, false, false, false, false, false, 1);
      var users := map[1 := applicant];
      1 in CountedIds(users) && 1 !in PendingIds(users)
    ensures var root := User(2, "Root", "root@example.com", AdminRole, Unusable,
                             true, true, true, false, true, false, 2);
      var users := map[2 := root];
      2 in PendingIds(users) && 2 !in CountedIds(users)
  {
  }

  /** The listed users who are not superusers. */
  function ListedNonSuperusers(users: map<nat, User>): (ids: set<nat>)
    ensures forall id :: id in ids <==> id in PendingIds(users) && !users[id].isSuperuser
  {
    set id | id in PendingIds(users) && !users[id].isSuperuser
  }

  /** Every listed user who is not a superuser is also counted, so there are at most as many. */
  lemma ListedNonSuperusersAreCounted(users: map<nat, User>)
    ensures ListedNonSuperusers(users) <= CountedIds(users)
    ensures |ListedNonSuperusers(users)| <= |CountedIds(users)|
  {
    SubsetCardinality(ListedNonSuperusers(users), CountedIds(users));
  }

  /** Approval raises `is_approved_by_admin` and touches no other field. */
  function Approve(u: User): (v: User)
    ensures v.isApprovedByAdmin
    ensures v.(isApprovedByAdmin := u.isApprovedByAdmin) == u
  {
    u.(isApprovedByAdmin := true)
  }

  /**
    `ApproveUserView.post`: a non-admin caller gets 403 and nothing changes;
    an unknown key 404; an already approved user 200 and nothing changes;
    otherwise exactly that user becomes approved.
   */
  function ApproveSpec(caller: User, users: map<nat, User>, pk: nat): (t: Transition)
    ensures caller.role != AdminRole ==> t == Transition(Response(403, OnlyAdminsCanApprove), users)
    ensures caller.role == AdminRole && pk !in users ==> t == Transition(Response(404, NotFound), users)
    ensures caller.role == AdminRole && pk in users && users[pk].isApprovedByAdmin ==>
      t == Transition(Response(200, AlreadyApproved), users)
    ensures caller.role == AdminRole && pk in users && !users[pk].isApprovedByAdmin ==>
      && t.response == Response(200, ApprovedUser(users[pk].name))
      && t.users.Keys == users.Keys
      && t.users[pk] == Approve(users[pk])
      && forall id :: id in users && id != pk ==> t.users[id] == users[id]
  {
    if caller.role != AdminRole then Transition(Response(403, OnlyAdminsCanApprove), users)
    else if pk !in users then Transition(Response(404, NotFound), users)
    else if users[pk].isApprovedByAdmin then Transition(Response(200, AlreadyApproved), users)
    else Transition(Response(200, ApprovedUser(users[pk].name)), users[pk := Approve(users[pk])])
  }

  method ApproveUser(store: AccountStore, caller: User, pk: nat) returns (resp: Response)
    requires store.Valid()
    modifies store
    ensures store.Valid() && store.nextId == old(store.nextId)
    ensures var t := ApproveSpec(caller, old(store.users), pk);
      resp == t.response && store.users == t.users
  {
    var t := ApproveSpec(caller, store.users, pk);
    store.users := t.users;
    resp := t.response;
  }

  /** Approving twice is approving once; the second call reports "already approved". */
  lemma ApproveIsIdempotent(caller: User, users: map<nat, User>, pk: nat)
    requires caller.role == AdminRole && pk in users
    ensures var t1 := ApproveSpec(caller, users, pk);
      var t2 := ApproveSpec(caller, t1.users, pk);
      t2 == Transition(Response(200, AlreadyApproved), t1.users)
  {
  }

  /**
    Approving a user takes exactly that user off the pending list and out of
    the pending count, and the count drops by one when the user was counted.
   */
  lemma ApprovalLeavesPending(caller: User, users: map<nat, User>, pk: nat)
    requires caller.role == AdminRole && pk in users
    ensures var after := ApproveSpec(caller, users, pk).users;
      && PendingIds(after) == PendingIds(users) - {pk}
      && CountedIds(after) == CountedIds(users) - {pk}
      && |CountedIds(after)| == |CountedIds(users)| - (if pk in CountedIds(users) then 1 else 0)
  {
    var after := ApproveSpec(caller, users, pk).users;
    assert PendingIds(after) == PendingIds(users) - {pk};
    assert CountedIds(after) == CountedIds(users) - {pk};
  }

  /** Verification never changes the pending count, and puts an unapproved user on the list. */
  lemma VerificationJoinsPendingList(users: map<nat, User>, token: Uuid)
    ensures var t := VerifyEmailSpec(users, token);
      && CountedIds(t.users) == CountedIds(users)
      && PendingIds(users) <= PendingIds(t.users)
      && forall id ::
           (id in WithToken(users, token) && |WithToken(users, token)| == 1 && !users[id].isApprovedByAdmin)
           ==> id in PendingIds(t.users)
  {
    var t := VerifyEmailSpec(users, token);
    assert CountedIds(t.users) == CountedIds(users);
  }

  /**
    Saving a new unapproved, non-superuser account (as `create_user` with
    default flags or registration does) raises the pending count by one;
    saving a promoted superuser leaves it as it was.
   */
  lemma NewAccountsAndTheCount(users: map<nat, User>, id: nat, u: User)
    requires id !in users
    ensures !u.isApprovedByAdmin && !u.isSuperuser ==>
      |CountedIds(users[id := u])| == |CountedIds(users)| + 1
    ensures |CountedIds(users[id := Promote(u)])| == |CountedIds(users)|
  {
    if !u.isApprovedByAdmin && !u.isSuperuser {
      assert CountedIds(users[id := u]) == CountedIds(users) + {id};
    }
    assert CountedIds(users[id := Promote(u)]) == CountedIds(users);
  }
}
