/** `TenantRegisterSerializer`: the validation of the requested schema name
    and the creation of a tenant, its primary domain and its admin user. */
module UsersSerializers {
  import opened Common
  import opened Accounts

  /** `validate_username`: a schema name already in use is rejected, any
      other value passes unchanged. */
  function ValidateUsername(tenants: map<Id, Tenant>, value: string): (r: Result<string>)
    ensures r.Success? <==> !SchemaTaken(tenants, value)
    ensures r.Success? ==> r.value == value
    ensures r.Failure? ==> r.status == BadRequest
  {
    if SchemaTaken(tenants, value) then Failure(BadRequest) else Success(value)
  }

  /** `host.split(":")[0]`: the host text before its first colon. */
  function HostName(host: string): (r: string)
    ensures ':' !in r
    ensures r <= host
    ensures |r| < |host| ==> host[|r|] == ':'
  {
    if host == [] || host[0] == ':' then [] else [host[0]] + HostName(host[1..])
  }

  /** A host without a colon is its own host name. */
  lemma {:induction false} HostNameOfPlainHost(host: string)
    requires ':' !in host
    ensures HostName(host) == host
  {
    if host != [] {
      assert host[0] in host;
      assert forall i | 0 <= i < |host[1..]| :: host[1..][i] == host[i + 1];
      HostNameOfPlainHost(host[1..]);
      assert host == [host[0]] + host[1..];
    }
  }

  /** A host with a colon loses at least the colon. */
  lemma HostNameOfPortedHost(host: string)
    requires ':' in host
    ensures |HostName(host)| < |host|
  {
    assert HostName(host) != host;
  }

  /** The domain row's host name: `f"{username}.{host before ':'}"`. */
  function DomainFor(username: string, host: string): (d: string)
    ensures username + "." <= d
    ensures var rest := d[|username| + 1..]; ':' !in rest && rest <= host
    ensures |d| < |username| + 1 + |host| ==> host[|d| - |username| - 1] == ':'
  {
    username + "." + HostName(host)
  }

  /** The stored domain never carries a port when the schema name has no
      colon, and is `username.host` exactly when the host has none. */
  lemma DomainHasNoPort(username: string, host: string)
    ensures ':' !in username ==> ':' !in DomainFor(username, host)
    ensures ':' !in host ==> DomainFor(username, host) == username + "." + host
  {
    if ':' !in host {
      HostNameOfPlainHost(host);
    }
    var d, h := DomainFor(username, host), HostName(host);
    if ':' !in username {
      forall i | 0 <= i < |d| ensures d[i] != ':' {
        if i < |username| {
          assert d[i] == username[i];
        } else if i > |username| {
          assert d[i] == h[i - |username| - 1];
        }
      }
    }
  }

  /** The request body of a tenant registration. */
  datatype TenantForm = TenantForm(username: string, address: Option<string>, regNo: Option<string>,
                                   companyName: string, email: string, firstName: string)

  /** What `create` returns: the new tenant, the full request host (port
      included), the schema name and the admin user. */
  datatype Registration = Registration(tenant: Id, domain: string, username: string, user: Id)

  /** The admin user `create_user` makes: all three flags set. */
  function NewAdmin(form: TenantForm, tenant: Id): (u: User)
    ensures u.email == form.email && u.username == form.firstName && u.tenant == Some(tenant)
    ensures u.isTenantAdmin && u.isSuperuser && u.isStaff
  {
    User(form.email, form.firstName, Some(tenant), true, true, true)
  }

  /** The store once the tenant row is in. */
  function WithTenant(s: Store, form: TenantForm): Store
  {
    s.(tenants := s.tenants[s.nextTenant := Tenant(form.username, form.companyName, form.address, form.regNo)],
       nextTenant := s.nextTenant + 1)
  }

  /** The store once the primary domain row of the new tenant is in too. */
  function WithDomain(s: Store, form: TenantForm, host: string): Store
  {
    var s1 := WithTenant(s, form);
    s1.(domains := s1.domains[s1.nextDomain := Domain(DomainFor(form.username, host), s.nextTenant, true)],
        nextDomain := s1.nextDomain + 1)
  }

  /** The store once the admin user is in as well. */
  function WithAdmin(s: Store, form: TenantForm, host: string): Store
  {
    var s2 := WithDomain(s, form, host);
    s2.(users := s2.users[s2.nextUser := NewAdmin(form, s.nextTenant)], nextUser := s2.nextUser + 1)
  }

  /** The schema name django-tenants accepts when the tenant row is saved:
      one to 63 letters, digits or underscores, not starting with `pg_` in
      any case (PostgreSQL reserves that prefix). */
  predicate ValidSchemaName(name: string)
  {
    && 1 <= |name| <= 63
    && (forall i | 0 <= i < |name| :: SchemaChar(name[i]))
    && !(|name| >= 3 && (name[0] == 'p' || name[0] == 'P') && (name[1] == 'g' || name[1] == 'G') && name[2] == '_')
  }

  /** A character of an SQL identifier: an ASCII letter, digit or underscore. */
  predicate SchemaChar(c: char)
  {
    c == '_' || 'a' <= c <= 'z' || 'A' <= c <= 'Z' || '0' <= c <= '9'
  }

  /** What `create` does. The three inserts run one after another outside
      any transaction, so an integrity error (a taken schema name or
      domain) or a failing `create_user` (`createOk` false) escapes as a
      500 and leaves the inserts made before it in place. A schema name
      django-tenants refuses is the exception: saving the tenant deletes
      the row it has just inserted before re-raising, so only its id is
      used up. */
  ghost predicate CreateTenantEffect(before: Store, after: Store, form: TenantForm, host: string, createOk: bool,
                                     r: Result<Registration>)
  {
    if SchemaTaken(before.tenants, form.username) then r == Failure(ServerError) && after == before
    else if !ValidSchemaName(form.username) then
      r == Failure(ServerError) && after == before.(nextTenant := before.nextTenant + 1)
    else if DomainTaken(before.domains, DomainFor(form.username, host)) then r == Failure(ServerError) && after == WithTenant(before, form)
    else if !createOk then r == Failure(ServerError) && after == WithDomain(before, form, host)
    else r == Success(Registration(before.nextTenant, host, form.username, before.nextUser)) && after == WithAdmin(before, form, host)
  }

  /** `TenantRegisterSerializer.create`; `host` is `request.get_host()`. */
  method CreateTenant(db: Database, form: TenantForm, host: string, createOk: bool) returns (r: Result<Registration>)
    requires db.Valid()
    modifies db
    ensures db.Valid()
    ensures CreateTenantEffect(old(db.Snap()), db.Snap(), form, host, createOk, r)
  {
    if SchemaTaken(db.tenants, form.username) {
      return Failure(ServerError);
    }
    var t := db.InsertTenant(Tenant(form.username, form.companyName, form.address, form.regNo));
    if !ValidSchemaName(form.username) {
      // the schema is never created: the row goes again and the error propagates
      db.tenants := db.tenants - {t};
      assert db.tenants == old(db.tenants);
      return Failure(ServerError);
    }
    var domain := DomainFor(form.username, host);
    if DomainTaken(db.domains, domain) {
      return Failure(ServerError);
    }
    var d := db.InsertDomain(Domain(domain, t, true));
    if !createOk {
      return Failure(ServerError);
    }
    var u := db.InsertUser(NewAdmin(form, t));
    r := Success(Registration(t, host, form.username, u));
  }

  /** A name django-tenants accepts has no colon, so its domain is port-free. */
  lemma ValidSchemaNameHasNoColon(name: string)
    requires ValidSchemaName(name)
    ensures ':' !in name
  {
    forall i | 0 <= i < |name| ensures name[i] != ':' {
      assert SchemaChar(name[i]);
    }
  }

  /** A name django-tenants refuses ends the request with a 500 and leaves
      every table as it was; the name stays free. */
  lemma InvalidSchemaNameRejected(before: Store, after: Store, form: TenantForm, host: string, createOk: bool,
                                  r: Result<Registration>)
    requires CreateTenantEffect(before, after, form, host, createOk, r)
    requires !SchemaTaken(before.tenants, form.username) && !ValidSchemaName(form.username)
    ensures r == Failure(ServerError)
    ensures after.tenants == before.tenants && after.domains == before.domains
    ensures after.users == before.users && after.profiles == before.profiles
    ensures !SchemaTaken(after.tenants, form.username)
  {
  }

  /** Names the serializer lets through but django-tenants refuses: a dot, a
      hyphen, a 64-character name and the reserved prefix. */
  lemma SomeNamesRefused()
    ensures !ValidSchemaName("st.mary") && !ValidSchemaName("st-mary")
    ensures !ValidSchemaName(seq(64, i => 'a')) && !ValidSchemaName("PG_clinic")
    ensures ValidSchemaName("st_mary")
  {
    assert !SchemaChar("st.mary"[2]);
    assert !SchemaChar("st-mary"[2]);
  }

  /** A successful creation adds one tenant named after the form, under a
      name django-tenants accepts, exactly one domain (primary, for that
      tenant, without a port) and one admin user of that tenant with all
      three flags; it returns the full host and the schema name. */
  lemma CreateTenantAdds(before: Store, after: Store, form: TenantForm, host: string, r: Result<Registration>)
    requires Good(before) && CreateTenantEffect(before, after, form, host, true, r) && r.Success?
    ensures ValidSchemaName(form.username)
    ensures r.value.tenant !in before.tenants && after.tenants.Keys == before.tenants.Keys + {r.value.tenant}
    ensures after.tenants[r.value.tenant] == Tenant(form.username, form.companyName, form.address, form.regNo)
    ensures |after.domains| == |before.domains| + 1
    ensures forall i | i in after.domains && i !in before.domains ::
              after.domains[i] == Domain(DomainFor(form.username, host), r.value.tenant, true)
              && ':' !in after.domains[i].domain
    ensures r.value.user !in before.users && after.users[r.value.user] == NewAdmin(form, r.value.tenant)
    ensures r.value.domain == host && r.value.username == form.username
    ensures after.profiles == before.profiles
  {
    assert before.nextDomain !in before.domains;
    ValidSchemaNameHasNoColon(form.username);
    DomainHasNoPort(form.username, host);
  }

  /** A creation under an accepted name that fails at the domain still
      leaves the tenant row behind, so the schema name is taken from then on. */
  lemma DomainClashLeavesTenant(before: Store, after: Store, form: TenantForm, host: string, createOk: bool,
                                r: Result<Registration>)
    requires CreateTenantEffect(before, after, form, host, createOk, r)
    requires !SchemaTaken(before.tenants, form.username) && ValidSchemaName(form.username)
    requires DomainTaken(before.domains, DomainFor(form.username, host))
    ensures r == Failure(ServerError)
    ensures SchemaTaken(after.tenants, form.username) && ValidateUsername(after.tenants, form.username).Failure?
    ensures after.domains == before.domains && after.users == before.users
  {
    assert after.tenants[before.nextTenant].schema == form.username;
  }

  /** Every outcome of `create` keeps the store's constraints. */
  lemma CreateTenantKeepsGood(before: Store, after: Store, form: TenantForm, host: string, createOk: bool,
                              r: Result<Registration>)
    requires Good(before) && CreateTenantEffect(before, after, form, host, createOk, r)
    ensures Good(after)
  {
    if !SchemaTaken(before.tenants, form.username) && ValidSchemaName(form.username) {
      var domain := DomainFor(form.username, host);
      if !DomainTaken(before.domains, domain) {
        DomainStepKeepsGood(before, form, host);
      } else {
        TenantStepKeepsGood(before, form);
      }
    }
  }

  lemma TenantStepKeepsGood(s: Store, form: TenantForm)
    requires Good(s) && !SchemaTaken(s.tenants, form.username)
    ensures Good(WithTenant(s, form))
  {
  }

  lemma DomainStepKeepsGood(s: Store, form: TenantForm, host: string)
    requires Good(s) && !SchemaTaken(s.tenants, form.username)
    requires !DomainTaken(s.domains, DomainFor(form.username, host))
    ensures Good(WithDomain(s, form, host)) && Good(WithAdmin(s, form, host))
  {
    TenantStepKeepsGood(s, form);
  }
}
