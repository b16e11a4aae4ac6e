/** The account views of `clients`: the login decision, the profile view of
    the caller, and the tenant management get/patch/delete of profiles. */
module ClientsViews {
  import opened Common
  import opened Accounts
  import opened ClientsSerializers

  /** A login answer: the status and, on 200, the user's `is_tenant_admin`
      flag (the token the answer carries is left out). */
  datatype LoginReply = LoginReply(status: Status, isTenantAdmin: Option<bool>)

  /** `UserLoginView.post` after the tenant e-mail backend has answered:
      `auth` is the user it authenticated, if any. */
  function Login(users: map<Id, User>, profiles: map<Id, Profile>, auth: Option<Id>): (r: LoginReply)
    requires auth.Some? ==> auth.value in users
    ensures r.status == BadRequest <==> auth.None?
    ensures r.status == Ok ==> r.isTenantAdmin == Some(users[auth.value].isTenantAdmin)
    ensures r.status != Ok ==> r.isTenantAdmin == None
    ensures auth.Some? && ManyProfiles(profiles, auth.value) ==> r == LoginReply(ServerError, None)
    ensures auth.Some? && HasProfile(profiles, auth.value) && !ManyProfiles(profiles, auth.value) ==>
              r == LoginReply(Ok, Some(users[auth.value].isTenantAdmin))
    ensures auth.Some? && !HasProfile(profiles, auth.value) ==>
              r.status == (if !EmailKnown(users, users[auth.value].email) then Unauthorized
                           else if EmailShared(users, users[auth.value].email) then ServerError
                           else if users[auth.value].isTenantAdmin then Ok
                           else NotFound)
  {
    match auth
    case None => LoginReply(BadRequest, None)
    case Some(u) =>
      var user := users[u];
      if ManyProfiles(profiles, u) then LoginReply(ServerError, None)
      else if HasProfile(profiles, u) then LoginReply(Ok, Some(user.isTenantAdmin))
      else if !EmailKnown(users, user.email) then LoginReply(Unauthorized, None)
      else if EmailShared(users, user.email) then LoginReply(ServerError, None)
      else if user.isTenantAdmin then LoginReply(Ok, Some(true))
      else LoginReply(NotFound, None)
  }

  /** The 401 branch is dead: the e-mail lookup always finds at least the
      authenticated user itself. */
  lemma LoginNeverUnauthorized(users: map<Id, User>, profiles: map<Id, Profile>, auth: Option<Id>)
    requires auth.Some? ==> auth.value in users
    ensures Login(users, profiles, auth).status != Unauthorized
  {
    if auth.Some? {
      var u := auth.value;
      assert u in users && users[u].email == users[u].email;
      assert EmailKnown(users, users[u].email);
    }
  }

  /** A member who has just registered logs in with 200 and no admin flag. */
  lemma RegisteredUserLogsIn(before: Store, after: Store, schema: string, email: string, username: string,
                             phone: string, r: Result<Id>)
    requires Good(before)
    requires RegisterEffect(before, after, schema, email, username, phone, true, r) && r.Success?
    ensures Login(after.users, after.profiles, Some(r.value)) == LoginReply(Ok, Some(false))
  {
    RegisterAddsUserAndProfile(before, after, schema, email, username, phone, true, r);
    assert Good(after);
    OneProfileEach(after, r.value);
  }

  /** What `UserView.get` answers: 200 with the caller's profile, or 200
      with a message when there is none. */
  datatype ProfileReply = ProfileReply(status: Status, profile: Option<Profile>)

  /** `UserView.get`. */
  function UserView(profiles: map<Id, Profile>, caller: Caller): (r: ProfileReply)
    ensures r.status == Ok <==> !ManyProfiles(profiles, caller.id)
    ensures r.status != Ok ==> r.status == ServerError && r.profile == None
    ensures r.profile.Some? <==> r.status == Ok && HasProfile(profiles, caller.id)
    ensures r.profile.Some? ==> r.profile.value.user == caller.id && r.profile.value in profiles.Values
  {
    if ManyProfiles(profiles, caller.id) then ProfileReply(ServerError, None)
    else if HasProfile(profiles, caller.id) then ProfileReply(Ok, Some(profiles[ProfileOf(profiles, caller.id)]))
    else ProfileReply(Ok, None)
  }

  /** In a consistent store the caller always gets 200, with or without a profile. */
  lemma UserViewAlwaysOk(s: Store, caller: Caller)
    requires Good(s)
    ensures UserView(s.profiles, caller).status == Ok
  {
    OneProfileEach(s, caller.id);
  }

  /** `TenantManagementView.get`: `UserProfile.objects.get(id=user_id)`,
      with no admin or owner check. */
  function ProfileById(profiles: map<Id, Profile>, id: Id): (r: Result<Profile>)
    ensures r.Success? <==> id in profiles
    ensures r.Success? ==> r.value == profiles[id]
    ensures r.Failure? ==> r.status == NotFound
  {
    if id in profiles then Success(profiles[id]) else Failure(NotFound)
  }

  /** The profile that the tenant management patch and delete act on: for a
      tenant admin the profile `user_id`; for anyone else the caller's own
      profile, whatever `user_id` says. A miss is 404. */
  function Target(profiles: map<Id, Profile>, caller: Caller, userId: Id): (r: Result<Id>)
    ensures caller.isTenantAdmin ==> (r.Success? <==> userId in profiles) && (r.Success? ==> r.value == userId)
    ensures !caller.isTenantAdmin ==> (r.Success? <==> HasProfile(profiles, caller.id) && !ManyProfiles(profiles, caller.id))
    ensures !caller.isTenantAdmin && r.Success? ==> r.value in profiles && profiles[r.value].user == caller.id
    ensures r.Failure? ==> r.status == (if !caller.isTenantAdmin && ManyProfiles(profiles, caller.id) then ServerError else NotFound)
  {
    if caller.isTenantAdmin then
      if userId in profiles then Success(userId) else Failure(NotFound)
    else if ManyProfiles(profiles, caller.id) then Failure(ServerError)
    else if HasProfile(profiles, caller.id) then Success(ProfileOf(profiles, caller.id))
    else Failure(NotFound)
  }

  /** For an ordinary user the `user_id` in the URL makes no difference. */
  lemma TargetIgnoresUserId(profiles: map<Id, Profile>, caller: Caller, a: Id, b: Id)
    requires !caller.isTenantAdmin
    ensures Target(profiles, caller, a) == Target(profiles, caller, b)
  {
  }

  /** What `TenantManagementView.patch` does. */
  ghost predicate TenantPatchEffect(before: Store, after: Store, caller: Caller, userId: Id, d: ProfileUpdate, valid: bool, st: Status)
  {
    match Target(before.profiles, caller, userId)
    case Failure(e) => st == e && after == before
    case Success(pid) =>
      if !valid then st == BadRequest && after == before
      else st == Ok && UpdateEffect(before, after, pid, d)
  }

  /** `TenantManagementView.patch`. */
  method TenantPatch(db: Database, caller: Caller, userId: Id, d: ProfileUpdate, valid: bool) returns (st: Status)
    requires db.Valid()
    modifies db
    ensures db.Valid()
    ensures TenantPatchEffect(old(db.Snap()), db.Snap(), caller, userId, d, valid, st)
  {
    var target := Target(db.profiles, caller, userId);
    if target.Failure? {
      return target.status;
    }
    if !valid {
      return BadRequest;
    }
    UpdateProfile(db, target.value, d);
    st := Ok;
  }

  /** What `TenantManagementView.delete` does: the profile row goes, its
      user stays. */
  ghost predicate TenantDeleteEffect(before: Store, after: Store, caller: Caller, userId: Id, st: Status)
  {
    match Target(before.profiles, caller, userId)
    case Failure(e) => st == e && after == before
    case Success(pid) => st == Ok && after == before.(profiles := before.profiles - {pid})
  }

  /** `TenantManagementView.delete`. */
  method TenantDelete(db: Database, caller: Caller, userId: Id) returns (st: Status)
    requires db.Valid()
    modifies db
    ensures db.Valid()
    ensures TenantDeleteEffect(old(db.Snap()), db.Snap(), caller, userId, st)
  {
    var target := Target(db.profiles, caller, userId);
    if target.Failure? {
      return target.status;
    }
    db.profiles := db.profiles - {target.value};
    st := Ok;
  }

  /** An ordinary user's patch never reaches another user's profile: the
      profiles of every other user, and every other user, stay as they were. */
  lemma NonAdminPatchStaysOwn(before: Store, after: Store, caller: Caller, userId: Id, d: ProfileUpdate, valid: bool, st: Status)
    requires !caller.isTenantAdmin
    requires TenantPatchEffect(before, after, caller, userId, d, valid, st)
    ensures forall q | q in before.profiles && before.profiles[q].user != caller.id :: q in after.profiles && after.profiles[q] == before.profiles[q]
    ensures forall u | u in before.users && u != caller.id :: u in after.users && after.users[u] == before.users[u]
  {
  }

  /** An ordinary user who deletes their own profile is still a user, but
      logging in from then on is 404 (their e-mail being their own). */
  lemma SelfDeleteLocksOut(before: Store, after: Store, caller: Caller, userId: Id, st: Status)
    requires Good(before) && caller.id in before.users && !before.users[caller.id].isTenantAdmin
    requires !caller.isTenantAdmin && !EmailShared(before.users, before.users[caller.id].email)
    requires TenantDeleteEffect(before, after, caller, userId, st) && st == Ok
    ensures caller.id in after.users && !HasProfile(after.profiles, caller.id)
    ensures Login(after.users, after.profiles, Some(caller.id)).status == NotFound
  {
    var pid := Target(before.profiles, caller, userId).value;
    assert after.profiles == before.profiles - {pid};
    assert EmailKnown(after.users, after.users[caller.id].email);
  }

  /** Nothing stops an ordinary user from making themself a tenant admin:
      a valid patch of their own profile whose nested `user` sets
      `is_tenant_admin` succeeds, and from then on the user is an admin of
      the same tenant. */
  lemma NonAdminCanPromoteSelf(before: Store, after: Store, caller: Caller, userId: Id, d: ProfileUpdate, st: Status)
    requires Good(before) && !caller.isTenantAdmin && caller.id in before.users && HasProfile(before.profiles, caller.id)
    requires d.user == Some(UserUpdate(Keep, Keep, Set(true), Keep))
    requires TenantPatchEffect(before, after, caller, userId, d, true, st)
    ensures st == Ok
    ensures caller.id in after.users && after.users[caller.id].isTenantAdmin
    ensures after.users[caller.id].tenant == before.users[caller.id].tenant
  {
    OneProfileEach(before, caller.id);
  }
}
