/** `UserRegisterSerializer.create` and `UserSerializer.update`: the user
    registration of a tenant and the partial update of a profile together
    with its linked user. */
module ClientsSerializers {
  import opened Common
  import opened Accounts

  /** The tenant whose `schema_name` is `schema` (`Tenant.objects.get`). */
  function TenantNamed(tenants: map<Id, Tenant>, schema: string): (r: Id)
    requires SchemaTaken(tenants, schema) && !SchemaShared(tenants, schema)
    ensures r in tenants && tenants[r].schema == schema
    ensures forall i | i in tenants && tenants[i].schema == schema :: i == r
  {
    var i :| i in tenants && tenants[i].schema == schema; i
  }

  /** The user `create_user` makes for a registration: no admin, superuser
      or staff flag, bound to the request tenant. */
  function NewMember(email: string, username: string, tenant: Id): (u: User)
    ensures u.tenant == Some(tenant) && u.email == email && u.username == username
    ensures !u.isTenantAdmin && !u.isSuperuser && !u.isStaff
  {
    User(email, username, Some(tenant), false, false, false)
  }

  /** What a registration does. The request tenant is looked up by its
      schema name; a miss is "Domain Does not exists" (several matches raise
      uncaught, a 500, which a good store never meets). A failing
      `create_user` (`createOk` false) is re-raised as a validation error and
      no profile is made. Both errors reach the client as 400. Otherwise one
      user and one profile are added. */
  ghost predicate RegisterEffect(before: Store, after: Store, schema: string, email: string, username: string,
                                 phone: string, createOk: bool, r: Result<Id>)
  {
    if !SchemaTaken(before.tenants, schema) then r == Failure(BadRequest) && after == before
    else if SchemaShared(before.tenants, schema) then r == Failure(ServerError) && after == before
    else if !createOk then r == Failure(BadRequest) && after == before
    else
      var t := TenantNamed(before.tenants, schema);
      var u := before.nextUser;
      && r == Success(u)
      && after == before.(users := before.users[u := NewMember(email, username, t)], nextUser := u + 1,
                          profiles := before.profiles[before.nextProfile := Profile(u, Some(t), Some(phone))],
                          nextProfile := before.nextProfile + 1)
  }

  /** `UserRegisterSerializer.create`. */
  method RegisterUser(db: Database, schema: string, email: string, username: string, phone: string, createOk: bool)
    returns (r: Result<Id>)
    requires db.Valid()
    modifies db
    ensures db.Valid()
    ensures RegisterEffect(old(db.Snap()), db.Snap(), schema, email, username, phone, createOk, r)
  {
    if !SchemaTaken(db.tenants, schema) {
      return Failure(BadRequest);
    }
    var t := TenantNamed(db.tenants, schema);
    if !createOk {
      return Failure(BadRequest);
    }
    var u := db.InsertUser(NewMember(email, username, t));
    assert !HasProfile(db.profiles, u);
    var p := db.InsertProfile(Profile(u, Some(t), Some(phone)));
    r := Success(u);
  }

  /** The nested `user` keys of a profile update. */
  datatype UserUpdate = UserUpdate(email: Update<string>, username: Update<string>,
                                   isTenantAdmin: Update<bool>, isStaff: Update<bool>)

  /** A profile update: `phone`, `tenant` and the optional nested `user`. */
  datatype ProfileUpdate = ProfileUpdate(phone: Update<Option<string>>, tenant: Update<Option<Id>>, user: Option<UserUpdate>)

  /** `if user_data:` — the nested dictionary is present and has a key. */
  predicate Supplied(d: Option<UserUpdate>)
  {
    d.Some? && !(d.value.email.Keep? && d.value.username.Keep? && d.value.isTenantAdmin.Keep? && d.value.isStaff.Keep?)
  }

  /** The profile after `instance.phone`/`instance.tenant` are assigned from
      the supplied keys, with the old values as defaults. */
  function UpdatedProfile(p: Profile, d: ProfileUpdate): (r: Profile)
    ensures r.user == p.user
    ensures d.phone.Keep? ==> r.phone == p.phone
    ensures d.phone.Set? ==> r.phone == d.phone.value
    ensures d.tenant.Keep? ==> r.tenant == p.tenant
    ensures d.tenant.Set? ==> r.tenant == d.tenant.value
  {
    p.(phone := Apply(d.phone, p.phone), tenant := Apply(d.tenant, p.tenant))
  }

  /** The linked user after its four editable fields are assigned; its
      tenant and superuser flag are never touched. */
  function UpdatedUser(u: User, d: UserUpdate): (r: User)
    ensures r.tenant == u.tenant && r.isSuperuser == u.isSuperuser
    ensures r.email == Apply(d.email, u.email) && r.username == Apply(d.username, u.username)
    ensures r.isTenantAdmin == Apply(d.isTenantAdmin, u.isTenantAdmin) && r.isStaff == Apply(d.isStaff, u.isStaff)
  {
    u.(email := Apply(d.email, u.email), username := Apply(d.username, u.username),
       isTenantAdmin := Apply(d.isTenantAdmin, u.isTenantAdmin), isStaff := Apply(d.isStaff, u.isStaff))
  }

  /** What `UserSerializer.update` does to profile `pid` and its user. */
  ghost predicate UpdateEffect(before: Store, after: Store, pid: Id, d: ProfileUpdate)
    requires pid in before.profiles
  {
    var p := before.profiles[pid];
    var users := if Supplied(d.user) && p.user in before.users
                 then before.users[p.user := UpdatedUser(before.users[p.user], d.user.value)]
                 else before.users;
    after == before.(profiles := before.profiles[pid := UpdatedProfile(p, d)], users := users)
  }

  /** `UserSerializer.update` on the profile `pid` the view has found. */
  method UpdateProfile(db: Database, pid: Id, d: ProfileUpdate)
    requires db.Valid() && pid in db.profiles
    modifies db
    ensures db.Valid()
    ensures UpdateEffect(old(db.Snap()), db.Snap(), pid, d)
  {
    var p := db.profiles[pid];
    db.profiles := db.profiles[pid := UpdatedProfile(p, d)];
    if Supplied(d.user) {
      var u := db.users[p.user];
      db.users := db.users[p.user := UpdatedUser(u, d.user.value)];
    }
  }

  /** Every profile update keeps the store's constraints. */
  lemma UpdateKeepsGood(before: Store, after: Store, pid: Id, d: ProfileUpdate)
    requires Good(before) && pid in before.profiles
    requires UpdateEffect(before, after, pid, d)
    ensures Good(after)
  {
  }

  /** A registration adds exactly one user, bound to the request tenant with
      no admin flag, and exactly one profile for it carrying the phone;
      nothing else changes. A failed one changes nothing. */
  lemma RegisterAddsUserAndProfile(before: Store, after: Store, schema: string, email: string, username: string,
                                   phone: string, createOk: bool, r: Result<Id>)
    requires Good(before) && RegisterEffect(before, after, schema, email, username, phone, createOk, r)
    ensures r.Failure? ==> r.status == BadRequest && after == before
    ensures r.Success? <==> SchemaTaken(before.tenants, schema) && createOk
    ensures r.Success? ==>
              && r.value !in before.users && after.users.Keys == before.users.Keys + {r.value}
              && after.users[r.value].tenant.Some?
              && after.tenants[after.users[r.value].tenant.value].schema == schema
              && !after.users[r.value].isTenantAdmin
              && HasProfile(after.profiles, r.value) && !HasProfile(before.profiles, r.value)
              && after.profiles[ProfileOf(after.profiles, r.value)].phone == Some(phone)
              && after.tenants == before.tenants && after.domains == before.domains
  {
    if r.Success? {
      var u := r.value;
      assert !HasProfile(before.profiles, u);
      assert Good(after);
      assert after.profiles[before.nextProfile].user == u;
      assert ProfileOf(after.profiles, u) == before.nextProfile;
    }
  }

  /** An update that supplies no key, or only an empty nested user, leaves
      the store as it was. */
  lemma EmptyUpdateIsIdentity(before: Store, after: Store, pid: Id, user: Option<UserUpdate>)
    requires pid in before.profiles && !Supplied(user)
    requires UpdateEffect(before, after, pid, ProfileUpdate(Keep, Keep, user))
    ensures after == before
  {
    assert after.profiles == before.profiles;
  }

  /** Sending the same update twice leaves the store as the first one left it. */
  lemma UpdateRepeatable(s0: Store, s1: Store, s2: Store, pid: Id, d: ProfileUpdate)
    requires pid in s0.profiles
    requires UpdateEffect(s0, s1, pid, d)
    requires UpdateEffect(s1, s2, pid, d)
    ensures s2 == s1
  {
    var p := s0.profiles[pid];
    assert s1.profiles[pid] == UpdatedProfile(p, d);
    assert UpdatedProfile(UpdatedProfile(p, d), d) == UpdatedProfile(p, d);
    if Supplied(d.user) && p.user in s0.users {
      var u := UpdatedUser(s0.users[p.user], d.user.value);
      assert UpdatedUser(u, d.user.value) == u;
    }
  }

  /** An update of one profile leaves every other profile, and every user
      other than the linked one, unchanged. */
  lemma UpdateTouchesOneProfile(before: Store, after: Store, pid: Id, d: ProfileUpdate)
    requires pid in before.profiles && UpdateEffect(before, after, pid, d)
    ensures after.profiles.Keys == before.profiles.Keys && after.users.Keys == before.users.Keys
    ensures forall q | q in before.profiles && q != pid :: after.profiles[q] == before.profiles[q]
    ensures forall u | u in before.users && u != before.profiles[pid].user :: after.users[u] == before.users[u]
    ensures after.tenants == before.tenants && after.domains == before.domains
  {
  }
}
