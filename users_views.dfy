/** The public views of `users`: the token gate of the SaaS login, the
    tenant registration endpoint and the tenant-existence check. */
module UsersViews {
  import opened Common
  import opened Accounts
  import opened UsersSerializers

  /** `CustomTokenObtainPairSerializer.validate` once the credentials have
      been accepted: only a global superuser (no tenant) gets a token;
      anyone else is answered 401. */
  function TokenGate(u: User): (r: Status)
    ensures r == Ok <==> u.isSuperuser && u.tenant.None?
    ensures r != Ok ==> r == Unauthorized
  {
    if !u.isSuperuser || u.tenant.Some? then Unauthorized else Ok
  }

  /** The `tenant_url` of the registration answer: `http://`, the schema
      name, a dot and the full request host. */
  function TenantUrl(username: string, host: string): (url: string)
    ensures "http://" + username + "." <= url
    ensures url[|username| + 8..] == host
  {
    "http://" + username + "." + host
  }

  lemma PrefixCancels(a: string, b: string, c: string)
    ensures a + b == a + c <==> b == c
  {
    if a + b == a + c {
      assert b == (a + b)[|a|..];
      assert c == (a + c)[|a|..];
    }
  }

  /** The answer's URL names the stored domain exactly when the host has no
      port; with a port (a development server, say) the URL keeps it while
      the domain row drops it. */
  lemma {:induction false} UrlMatchesDomainIffNoPort(username: string, host: string)
    ensures TenantUrl(username, host) == "http://" + DomainFor(username, host) <==> ':' !in host
  {
    assert TenantUrl(username, host) == ("http://" + username + ".") + host;
    assert "http://" + DomainFor(username, host) == ("http://" + username + ".") + HostName(host);
    PrefixCancels("http://" + username + ".", host, HostName(host));
    if ':' in host {
      HostNameOfPortedHost(host);
    } else {
      HostNameOfPlainHost(host);
    }
  }

  /** What `TenantRegister.post` does: 400 when the form is invalid
      (`fieldsValid` false, or the schema name taken), otherwise what
      `create` does, answered 201 with the tenant URL on success. */
  ghost predicate TenantRegisterEffect(before: Store, after: Store, form: TenantForm, fieldsValid: bool, host: string,
                                       createOk: bool, st: Status, url: Option<string>)
  {
    if !fieldsValid || ValidateUsername(before.tenants, form.username).Failure? then
      st == BadRequest && url == None && after == before
    else
      exists r :: CreateTenantEffect(before, after, form, host, createOk, r)
                  && (r.Success? ==> st == Created && url == Some(TenantUrl(form.username, host)))
                  && (r.Failure? ==> st == r.status && url == None)
  }

  /** `TenantRegister.post`. */
  method TenantRegisterPost(db: Database, form: TenantForm, fieldsValid: bool, host: string, createOk: bool)
    returns (st: Status, url: Option<string>)
    requires db.Valid()
    modifies db
    ensures db.Valid()
    ensures TenantRegisterEffect(old(db.Snap()), db.Snap(), form, fieldsValid, host, createOk, st, url)
  {
    if !fieldsValid || ValidateUsername(db.tenants, form.username).Failure? {
      return BadRequest, None;
    }
    var r := CreateTenant(db, form, host, createOk);
    if r.Failure? {
      return r.status, None;
    }
    st, url := Created, Some(TenantUrl(r.value.username, r.value.domain));
  }

  /** After validation the schema name is free, so the request either
      succeeds with 201 or fails with 500; the only way to get 400 is
      invalid input, and that creates nothing. A name django-tenants
      refuses always ends in 500 with the tenants as they were; under an
      accepted name the tenant row is kept whatever fails after it. */
  lemma RegisterOutcomes(before: Store, after: Store, form: TenantForm, fieldsValid: bool, host: string,
                         createOk: bool, st: Status, url: Option<string>)
    requires TenantRegisterEffect(before, after, form, fieldsValid, host, createOk, st, url)
    ensures st in {Created, BadRequest, ServerError}
    ensures st == BadRequest <==> !fieldsValid || SchemaTaken(before.tenants, form.username)
    ensures st == BadRequest ==> after == before
    ensures st != BadRequest ==> (SchemaTaken(after.tenants, form.username) <==> ValidSchemaName(form.username))
    ensures st != BadRequest && !ValidSchemaName(form.username) ==>
              st == ServerError && after.tenants == before.tenants && after.domains == before.domains
              && after.users == before.users && after.profiles == before.profiles
    ensures st == Created ==> ValidSchemaName(form.username)
    ensures st == Created <==> url.Some?
  {
    if st != BadRequest {
      var r :| CreateTenantEffect(before, after, form, host, createOk, r)
               && (r.Success? ==> st == Created && url == Some(TenantUrl(form.username, host)))
               && (r.Failure? ==> st == r.status && url == None);
      if ValidSchemaName(form.username) {
        assert after.tenants[before.nextTenant].schema == form.username;
      }
    }
  }

  /** The admin a registration creates is a superuser but belongs to a
      tenant, so the SaaS token gate turns it away. */
  lemma RegisteredAdminHasNoToken(before: Store, after: Store, form: TenantForm, host: string, r: Result<Registration>)
    requires CreateTenantEffect(before, after, form, host, true, r) && r.Success?
    ensures r.value.user in after.users && after.users[r.value.user].isSuperuser
    ensures TokenGate(after.users[r.value.user]) == Unauthorized
  {
  }

  /** What `CheckTenant.get` answers. */
  datatype CheckReply = CheckReply(status: Status, found: bool)

  /** `CheckTenant.get`: a missing `username` parameter filters on NULL and
      matches nothing. */
  function CheckTenant(tenants: map<Id, Tenant>, username: Option<string>): (r: CheckReply)
    ensures r.found <==> username.Some? && SchemaTaken(tenants, username.value)
    ensures r.status == (if r.found then Ok else NotFound)
  {
    match username
    case None => CheckReply(NotFound, false)
    case Some(name) => if SchemaTaken(tenants, name) then CheckReply(Ok, true) else CheckReply(NotFound, false)
  }

  /** The check answers True exactly for the names registration rejects. */
  lemma CheckAgreesWithValidation(tenants: map<Id, Tenant>, name: string)
    ensures CheckTenant(tenants, Some(name)).found <==> ValidateUsername(tenants, name).Failure?
  {
  }

  /** Once a registration got past validation, the check finds the tenant
      exactly when django-tenants accepted its name, whether or not the rest
      of the creation succeeded. */
  lemma RegisteredTenantFound(before: Store, after: Store, form: TenantForm, fieldsValid: bool, host: string,
                              createOk: bool, st: Status, url: Option<string>)
    requires TenantRegisterEffect(before, after, form, fieldsValid, host, createOk, st, url) && st != BadRequest
    ensures CheckTenant(after.tenants, Some(form.username))
            == if ValidSchemaName(form.username) then CheckReply(Ok, true) else CheckReply(NotFound, false)
  {
    RegisterOutcomes(before, after, form, fieldsValid, host, createOk, st, url);
  }
}
