/** The shared account tables: tenants and their domains (django-tenants),
    users (`CustomUser`) and user profiles (`UserProfile`), with the
    constraints the database keeps on them. */
module Accounts {
  import opened Common

  /** A tenant: its `schema_name`, display `name` and the optional address
      and registration number. */
  datatype Tenant = Tenant(schema: string, name: string, address: Option<string>, regNo: Option<string>)

  /** A host name routed to a tenant. */
  datatype Domain = Domain(domain: string, tenant: Id, isPrimary: bool)

  /** A user account; `tenant` is `None` for a global superuser. */
  datatype User = User(email: string, username: string, tenant: Option<Id>,
                       isTenantAdmin: bool, isSuperuser: bool, isStaff: bool)

  /** A user's profile: the user it describes, its tenant and phone. */
  datatype Profile = Profile(user: Id, tenant: Option<Id>, phone: Option<string>)

  /** The four tables with the id each next insert receives. */
  datatype Store = Store(tenants: map<Id, Tenant>, nextTenant: Id,
                         domains: map<Id, Domain>, nextDomain: Id,
                         users: map<Id, User>, nextUser: Id,
                         profiles: map<Id, Profile>, nextProfile: Id)

  /** Some tenant has schema name `schema`. */
  predicate SchemaTaken(tenants: map<Id, Tenant>, schema: string)
  {
    exists i :: i in tenants && tenants[i].schema == schema
  }

  /** Two tenants have schema name `schema`: a `.get` on it raises
      `MultipleObjectsReturned`. */
  predicate SchemaShared(tenants: map<Id, Tenant>, schema: string)
  {
    exists i, j :: i in tenants && j in tenants && i != j && tenants[i].schema == schema && tenants[j].schema == schema
  }

  /** Some domain row already holds the host name `name`. */
  predicate DomainTaken(domains: map<Id, Domain>, name: string)
  {
    exists i :: i in domains && domains[i].domain == name
  }

  /** Some profile describes `user`: `UserProfile.objects.get(user=...)` finds a row. */
  predicate HasProfile(profiles: map<Id, Profile>, user: Id)
  {
    exists p :: p in profiles && profiles[p].user == user
  }

  /** Two profiles describe `user`: that `.get` raises `MultipleObjectsReturned`. */
  predicate ManyProfiles(profiles: map<Id, Profile>, user: Id)
  {
    exists p, q :: p in profiles && q in profiles && p != q && profiles[p].user == user && profiles[q].user == user
  }

  /** The profile of `user`, when exactly one exists. */
  function ProfileOf(profiles: map<Id, Profile>, user: Id): (r: Id)
    requires HasProfile(profiles, user) && !ManyProfiles(profiles, user)
    ensures r in profiles && profiles[r].user == user
    ensures forall p | p in profiles && profiles[p].user == user :: p == r
  {
    var p :| p in profiles && profiles[p].user == user; p
  }

  /** Some user has `email`: `CustomUser.objects.get(email=...)` finds a row. */
  predicate EmailKnown(users: map<Id, User>, email: string)
  {
    exists u :: u in users && users[u].email == email
  }

  /** Two users share `email`: that `.get` raises `MultipleObjectsReturned`. */
  predicate EmailShared(users: map<Id, User>, email: string)
  {
    exists u, v :: u in users && v in users && u != v && users[u].email == email && users[v].email == email
  }

  /** `schema_name` is unique (django-tenants). */
  ghost predicate SchemasUnique(tenants: map<Id, Tenant>)
  {
    forall i, j | i in tenants && j in tenants && tenants[i].schema == tenants[j].schema :: i == j
  }

  /** `Domain.domain` is unique (django-tenants). */
  ghost predicate DomainNamesUnique(domains: map<Id, Domain>)
  {
    forall i, j | i in domains && j in domains && domains[i].domain == domains[j].domain :: i == j
  }

  /** What the stored tables satisfy: ids below their counters, the unique
      columns, every foreign key pointing at a stored row, and at most one
      profile per user (registration is the only way a profile is made, and
      it makes one for a new user). */
  ghost predicate Good(s: Store)
  {
    && (forall i | i in s.tenants :: i < s.nextTenant)
    && (forall i | i in s.domains :: i < s.nextDomain)
    && (forall i | i in s.users :: i < s.nextUser)
    && (forall i | i in s.profiles :: i < s.nextProfile)
    && SchemasUnique(s.tenants)
    && DomainNamesUnique(s.domains)
    && (forall d | d in s.domains :: s.domains[d].tenant in s.tenants)
    && (forall u | u in s.users && s.users[u].tenant.Some? :: s.users[u].tenant.value in s.tenants)
    && (forall p | p in s.profiles :: s.profiles[p].user in s.users)
    && (forall p, q | p in s.profiles && q in s.profiles && s.profiles[p].user == s.profiles[q].user :: p == q)
  }

  /** In a good store no user has two profiles. */
  lemma OneProfileEach(s: Store, user: Id)
    requires Good(s)
    ensures !ManyProfiles(s.profiles, user)
  {
  }

  /** The account tables as the ORM keeps them. */
  class Database {
    var tenants: map<Id, Tenant>
    var nextTenant: Id
    var domains: map<Id, Domain>
    var nextDomain: Id
    var users: map<Id, User>
    var nextUser: Id
    var profiles: map<Id, Profile>
    var nextProfile: Id

    function Snap(): Store
      reads this
    {
      Store(tenants, nextTenant, domains, nextDomain, users, nextUser, profiles, nextProfile)
    }

    ghost predicate Valid()
      reads this
    {
      Good(Snap())
    }

    constructor ()
      ensures Valid()
      ensures tenants == map[] && domains == map[] && users == map[] && profiles == map[]
    {
      tenants, nextTenant := map[], 1;
      domains, nextDomain := map[], 1;
      users, nextUser := map[], 1;
      profiles, nextProfile := map[], 1;
    }

    /** `Tenant.objects.create(...)`; the caller has checked the schema name is free. */
    method InsertTenant(t: Tenant) returns (id: Id)
      requires Valid() && !SchemaTaken(tenants, t.schema)
      modifies this
      ensures Valid()
      ensures id == old(nextTenant) && Snap() == old(Snap()).(tenants := old(tenants)[id := t], nextTenant := id + 1)
    {
      id := nextTenant;
      tenants := tenants[id := t];
      nextTenant := id + 1;
    }

    /** `Domain.objects.create(...)`; the caller has checked the host name is free. */
    method InsertDomain(d: Domain) returns (id: Id)
      requires Valid() && !DomainTaken(domains, d.domain) && d.tenant in tenants
      modifies this
      ensures Valid()
      ensures id == old(nextDomain) && Snap() == old(Snap()).(domains := old(domains)[id := d], nextDomain := id + 1)
    {
      id := nextDomain;
      domains := domains[id := d];
      nextDomain := id + 1;
    }

    /** `CustomUser.objects.create_user(...)` once it has succeeded. */
    method InsertUser(u: User) returns (id: Id)
      requires Valid() && (u.tenant.Some? ==> u.tenant.value in tenants)
      modifies this
      ensures Valid()
      ensures id == old(nextUser) && Snap() == old(Snap()).(users := old(users)[id := u], nextUser := id + 1)
    {
      id := nextUser;
      users := users[id := u];
      nextUser := id + 1;
    }

    /** `UserProfile.objects.create(...)` for a user that has no profile yet. */
    method InsertProfile(p: Profile) returns (id: Id)
      requires Valid() && p.user in users && !HasProfile(profiles, p.user)
      modifies this
      ensures Valid()
      ensures id == old(nextProfile) && Snap() == old(Snap()).(profiles := old(profiles)[id := p], nextProfile := id + 1)
    {
      id := nextProfile;
      profiles := profiles[id := p];
      nextProfile := id + 1;
    }
  }
}
