/** `create_default_tenant`, run after every migration: it seeds the public
    tenant and its production domain unless a public tenant is already there. */
module Signals {
  import opened Common
  import opened Accounts
  import opened UsersSerializers

  /** The host name of the deployed backend. */
  const ProductionDomain: string := "healthrxbackend.onrender.com"

  /** The public tenant row. */
  function PublicTenant(): (t: Tenant)
    ensures t.schema == "public" && t.name == "Public" && t.address == None && t.regNo == None
  {
    Tenant("public", "Public", None, None)
  }

  /** The store once the public tenant row is in. */
  function WithPublic(s: Store): Store
  {
    s.(tenants := s.tenants[s.nextTenant := PublicTenant()], nextTenant := s.nextTenant + 1)
  }

  /** The store once the production domain of the public tenant is in too. */
  function WithProductionDomain(s: Store): Store
  {
    var s1 := WithPublic(s);
    s1.(domains := s1.domains[s1.nextDomain := Domain(ProductionDomain, s.nextTenant, true)], nextDomain := s1.nextDomain + 1)
  }

  /** What the handler does: nothing when a "public" tenant exists;
      otherwise it inserts the tenant and then the primary domain. Should
      the production host name already be held by a domain row, the second
      insert raises (`ok` false) and the tenant row alone stays. */
  ghost predicate SeedEffect(before: Store, after: Store, ok: bool)
  {
    if SchemaTaken(before.tenants, "public") then ok && after == before
    else if DomainTaken(before.domains, ProductionDomain) then !ok && after == WithPublic(before)
    else ok && after == WithProductionDomain(before)
  }

  /** `create_default_tenant`. */
  method CreateDefaultTenant(db: Database) returns (ok: bool)
    requires db.Valid()
    modifies db
    ensures db.Valid()
    ensures SeedEffect(old(db.Snap()), db.Snap(), ok)
  {
    if SchemaTaken(db.tenants, "public") {
      return true;
    }
    var t := db.InsertTenant(PublicTenant());
    if DomainTaken(db.domains, ProductionDomain) {
      return false;
    }
    var d := db.InsertDomain(Domain(ProductionDomain, t, true));
    ok := true;
  }

  /** After the handler has run, whatever it met, a public tenant exists;
      when it had to create one on a free host name, exactly one domain row
      was added: the production host, primary, for the new tenant. */
  lemma SeedProvidesPublic(before: Store, after: Store, ok: bool)
    requires Good(before) && SeedEffect(before, after, ok)
    ensures SchemaTaken(after.tenants, "public")
    ensures !SchemaTaken(before.tenants, "public") && ok ==>
              && |after.domains| == |before.domains| + 1
              && (forall i | i in after.domains && i !in before.domains ::
                    after.domains[i] == Domain(ProductionDomain, before.nextTenant, true)
                    && after.tenants[after.domains[i].tenant] == PublicTenant())
  {
    if !SchemaTaken(before.tenants, "public") {
      assert after.tenants[before.nextTenant] == PublicTenant();
      assert before.nextDomain !in before.domains;
    }
  }

  /** Running the handler a second time changes nothing: running it twice
      has the effect of running it once. */
  lemma SeedIdempotent(s0: Store, s1: Store, s2: Store, ok1: bool, ok2: bool)
    requires Good(s0) && SeedEffect(s0, s1, ok1) && SeedEffect(s1, s2, ok2)
    ensures s2 == s1 && ok2
  {
    SeedProvidesPublic(s0, s1, ok1);
  }

  /** The handler never touches users or profiles. */
  lemma SeedLeavesAccounts(before: Store, after: Store, ok: bool)
    requires SeedEffect(before, after, ok)
    ensures after.users == before.users && after.profiles == before.profiles
    ensures before.tenants.Keys <= after.tenants.Keys && before.domains.Keys <= after.domains.Keys
  {
  }

  /** Once the handler has run, no tenant registration can claim the schema
      name "public". */
  lemma PublicNameReserved(before: Store, after: Store, ok: bool)
    requires Good(before) && SeedEffect(before, after, ok)
    ensures ValidateUsername(after.tenants, "public") == Failure(BadRequest)
  {
    SeedProvidesPublic(before, after, ok);
  }
}
