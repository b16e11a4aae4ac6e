# HealthRx backend — a Dafny model of its request handling

HealthRx is a multi-tenant hospital-management backend built on Django,
Django REST framework and django-tenants. Every hospital is a *tenant* with a
schema name and a primary *domain*. Users authenticate by e-mail, and each
user normally has one *profile*. The clinical modules (patients, appointments,
billing, OPD, IPD and IPD bills, pathology and pathology bills, radiology and
radiology bills, blogs) all keep the same kind of table. Its rows carry the
creating `user`, the `tenant`, an optional `patient` and the domain columns.
The staff module keeps tenant-scoped roles and employees.

This project models, as Dafny values and classes:

- **The record tables.** The `OwnedTable` module holds one generic `Table`
  class whose `rows` map the views change in place. It covers the list
  filters (by tenant, with the optional `patient` parameter, or by creator)
  and the create that stamps owner and tenant. It also covers the effective
  management `get`/`patch`/`delete`, which sit behind the admin-or-owner
  lookup.
- **Per-resource differences.** The `Resources` module gives each resource
  its own list filter, unique columns and create status. Its `Hospital` class
  holds the eleven tables as separate objects, so a write to one table changes
  no other.
- **Roles and employees.** The `Staff` module holds roles and employees in a
  `Directory` class. An employee is looked up by id and tenant. There is one
  employee per user.
- **Accounts.** The `Accounts` module holds tenants, domains, users and
  profiles in a `Database` class. Its invariant `Good` states the store's
  integrity constraints.
- **Clients serializers** (`ClientsSerializers`). User registration and the
  partial profile update with its nested user.
- **Clients views** (`ClientsViews`). The login decision, the caller's
  profile view, and the tenant management get/patch/delete of profiles.
- **Users serializers** (`UsersSerializers`). Schema-name validation, and
  tenant creation: the tenant, then the `username.host` domain, then the
  admin user.
- **Users views** (`UsersViews`). The SaaS token gate, tenant registration
  and the tenant-existence check.
- **Signals** (`Signals`). The post-migration seeding of the public tenant.

Every state-changing operation is a method. Its outcome is stated by a
two-state predicate over the old and new state, the `…Effect` predicates.
The lemmas first state what each outcome means. Then they state how
operations combine: create then look up, delete twice, patch twice, register
then log in, delete one's own profile then log in, seed twice, register then
check.

These behaviours of the code are surprising, and the model keeps them as
written:

- **Admin lookup ignores the tenant column.** The management lookup of a
  tenant admin is by id alone and does not filter on `tenant`. In the model's
  single table, where the tenant column stands in for django-tenants'
  per-schema tables, an admin reaches rows whose `tenant` is another one
  (`OwnedTable.AdminLookupCrossesTenants`). With per-schema tables, the id
  lookup stays within the request schema's table.
- **A patch takes ownership.** A patch re-stamps the row with the patching
  caller and the request tenant.
- **Login never answers 401.** The "user not found" branch of the login is
  unreachable.
- **Failed inserts stay.** A tenant registration under a schema name that
  django-tenants accepts, but that fails after the tenant insert, leaves the
  rows already inserted, because no transaction wraps them. A name
  django-tenants refuses (anything but one to 63 letters, digits and
  underscores, or one starting with `pg_`) is the exception: the tenant
  save deletes its own row again, and the request ends in 500. The
  serializer lets such names through: it accepts up to 100 characters and
  checks only that the name is free.

## Model

| member | source | states |
|---|---|---|
| Common.Merge | patients/views.py:94-96 | A partial update keeps every column the body does not supply and takes the supplied value for every column it does. |
| Common.MergeIdempotent | patients/views.py:94-96 | Merging the same partial body twice gives the same columns as merging it once. |
| Common.MergeNothing | patients/views.py:94-96 | An empty partial body leaves the columns as they were. |
| OwnedTable.NewRecord | patients/views.py:19 | The created row carries the caller as `user` and the request tenant as `tenant`, whatever the body says, and the body's columns and patient. |
| OwnedTable.Patched | patients/views.py:94-97 | A patched row carries the caller as `user` and the request tenant as `tenant`. Its patient is the supplied one, else the old one. Each column is the supplied value, else the old value. |
| OwnedTable.Gate | patients/views.py:63-78 | The management lookup succeeds exactly when the id exists and the caller is a tenant admin or the row's creator. It then returns that row; otherwise it answers 404. Same lookup in every resource module (e.g. appointments_list/views.py:86-95). |
| OwnedTable.ListByTenant | appointments_list/views.py:18-28 | The list holds exactly the rows of the request tenant, narrowed to one patient when the `patient` parameter is non-empty, with their stored values. Same in billing_counter, opd_module, and the ipd/pathology/radiology list views. |
| OwnedTable.ListByUser | patients/views.py:31-35 | The patient list holds exactly the rows the caller created, whatever their tenant column says (in the single-table stand-in; with per-schema tables, within the request schema). |
| OwnedTable.Table.Create | appointments_list/views.py:31-40 | Insert per `CreateEffect`: 400 with no change on invalid data (`valid` is `is_valid()`, which already rejects a non-null unique value held by a stored row). A clash at save time, which only a row stored by another request after validation can cause, gives 500 with no change. Otherwise one row at a fresh id and the module's success status. The table invariant is kept. |
| OwnedTable.Table.Patch | appointments_list/views.py:101-121 | Update per `PatchEffect`: 404 on a lookup miss, 400 on invalid data (including a unique value held by another row, which `is_valid()` rejects), and 500 on a unique clash at save time (a row stored by another request after validation), each leaving the table unchanged. Otherwise 200 with the row replaced by its patched form. |
| OwnedTable.Table.Delete | appointments_list/views.py:124-139 | Delete per `DeleteEffect`: 404 and no change on a lookup miss, otherwise 200 with exactly that row removed. |
| OwnedTable.CreateOutcomes | patients/views.py:16-28 | 400 exactly when the data is invalid, and 500 exactly on an integrity clash; neither adds a row. A created row has a fresh id, is the only key added, carries caller and tenant, and leaves every other row unchanged. |
| OwnedTable.CreateThenVisible | patients/views.py:19-22 | A created row opens through the creator's lookup and is in the creator's list and the request tenant's list; the tenant list grows by exactly one. |
| OwnedTable.PatchOutcomes | patients/views.py:81-101 | 404 exactly on a lookup miss, before the body is looked at. 400 exactly on invalid data for a found row. Any answer other than 200 leaves the table unchanged. A 200 replaces only the looked-up row, by its patched form. |
| OwnedTable.PatchRestamps | appointments_list/views.py:114-117 | After a successful patch the row belongs to the caller and to the request tenant's list only, and a former ordinary owner can no longer open it (ownership moves to the patching admin). Every other row is unchanged. |
| OwnedTable.PatchRepeatable | billing_counter/views.py:114-117 | The same valid patch sent twice succeeds again and leaves the table as the first one left it, apart from the `updated_at` stamp. |
| OwnedTable.DeleteRemovesOne | patients/views.py:104-119 | A successful delete removes exactly that id, leaves every other row, and takes the row out of every tenant list; repeating it answers 404 and changes nothing. |
| OwnedTable.GateMatchesOwnList | clients/views.py:253-272 | An ordinary user's lookup opens exactly the rows of their own list; a tenant admin's opens every row. |
| OwnedTable.TenantListsDisjoint | opd_module/views.py:18-28 | The lists of two different tenants share no row. |
| OwnedTable.PatientFilterNarrows | billing_counter/views.py:18-28 | An empty `patient` parameter lists like a missing one, and a patient filter only narrows the tenant list. |
| OwnedTable.AdminLookupCrossesTenants | opd_module/views.py:83-98 | For every table, a tenant admin opens every row whose tenant column differs from the request tenant, though the request tenant's list does not show it (a consequence of the single-table stand-in). |
| Resources.ListView | appointments_list/views.py:18-28 | The list `get` of each module: patients and blogs list exactly the caller's rows (patients/views.py:31-35, clients/views.py:218-224); every other module lists exactly the request tenant's rows, narrowed by a non-empty `patient`; each with its stored values. |
| Resources.CreatedStatus | clients/views.py:208-211 | A successful blog create answers 200; every other create answers 201 (e.g. patients/views.py:21-23). |
| Resources.FetchAll | patients/views.py:42-46 | "Fetch all" returns exactly the rows of the table with their stored values (in the single-table stand-in, the rows of every tenant column; with per-schema tables, the request schema's rows), a superset of every list view of the resource; same for `FetchAllBlogs` at clients/views.py:229-234. |
| Resources.OwnListIgnoresTenant | clients/views.py:218-224 | Patient and blog lists depend only on the caller, not on the request tenant or the `patient` parameter, and hold exactly the caller's rows. |
| Resources.TenantListIgnoresCaller | ipd_module/views.py:146-156 | The tenant-wide lists are the same whoever asks. |
| Resources.ListWiderThanGate | appointments_list/views.py:83-98 | For every tenant-wide resource and table, an ordinary user sees each row of the request tenant created by someone else in the list (with the `patient` parameter missing or empty), yet the management lookup answers 404 for it. |
| Resources.Hospital.Create | ipd_module/views.py:159-168 | A create on one resource's table behaves as `CreateEffect` with that resource's unique columns and success status; every other table is unchanged. |
| Resources.Hospital.Patch | pathology_module/views.py:229-249 | A patch on one resource's table behaves as `PatchEffect`; every other table is unchanged. |
| Resources.Hospital.Delete | radiology_module/views.py:252-267 | A delete on one resource's table behaves as `DeleteEffect`; every other table is unchanged. |
| Resources.HeldFeesFailsValidation | appointments_list/views.py:31-40 | On sequential requests, an appointment create whose non-null `fees` is already held fails `is_valid()` (the unique check of `fees`, appointments_list/models.py:39) and answers 400 with no row added. |
| Resources.DuplicateFeesRejected | appointments_list/views.py:36-39 | When the held `fees` was stored after validation passed (another request in between), the save raises the integrity error: 500 and no row added. |
| Resources.CreateSucceedsOnValidInput | clients/views.py:200-216 | For every resource but appointments, valid data always creates the row at the next id. The answer is 200 for a blog and 201 otherwise. The row shows in the resource's list and in "fetch all". For patients this describes the view as if its serializer matched the model (see "Left out"). |
| Staff.RolesOf | staff_management/views.py:17-20 | The role list holds exactly the roles of the request tenant. |
| Staff.EmployeesOf | staff_management/views.py:34-37 | The employee list holds exactly the employees of the request tenant. |
| Staff.FindEmployee | staff_management/views.py:56-62 | The employee lookup succeeds exactly when the id exists in the request tenant, whoever asks, and answers 404 otherwise. |
| Staff.Directory.AddRole | staff_management/views.py:22-27 | 400 and no change on invalid data, otherwise 201 with one role of the request tenant at a fresh id. |
| Staff.Directory.AddEmployee | staff_management/views.py:40-49 | 400 and no change on invalid data or when the caller is already bound to an employee; otherwise 201 with one employee stamped with caller and tenant. One employee per user is kept. |
| Staff.Directory.PatchEmployee | staff_management/views.py:71-80 | 404 on a lookup miss, 400 on invalid data, otherwise 200 with the supplied columns merged and tenant and user kept. |
| Staff.Directory.DeleteEmployee | staff_management/views.py:82-88 | 404 on a lookup miss, otherwise 200 with exactly that employee removed. |
| Staff.RoleListedInOwnTenant | staff_management/views.py:17-27 | A created role is listed for the request tenant and for no other; other tenants' lists are unchanged. |
| Staff.SecondEmployeeRejected | staff_management/models.py:14 | Once a caller is bound to an employee, a second create by the same caller, from any tenant and with any data, answers 400 and adds nothing. |
| Staff.FindMatchesList | staff_management/views.py:56-62 | The management lookup opens exactly the employees that the request tenant's list shows. |
| Staff.PatchKeepsBinding | staff_management/serializers.py:19 | An employee patch never changes any row's tenant or user, so every tenant's list keeps its members; a 200 merges the supplied columns. |
| Staff.OtherTenantUntouched | staff_management/views.py:71-88 | Patching or deleting another tenant's employee answers 404 and changes nothing, even for a tenant admin. |
| Staff.DeleteEmployeeRemovesOne | staff_management/views.py:82-88 | A delete removes exactly one employee from its tenant's list and leaves every other tenant's list unchanged. |
| ClientsSerializers.TenantNamed | clients/serializers.py:59-64 | When exactly one tenant carries the schema name, the lookup returns that tenant. |
| ClientsSerializers.NewMember | clients/serializers.py:66-82 | A registered member is bound to the request tenant with no admin, superuser or staff flag. |
| ClientsSerializers.RegisterUser | clients/serializers.py:56-87 | Registration per `RegisterEffect`: an unknown tenant or a failing `create_user` gives 400 and no change (two or more tenants of the requested name, which a good store rules out, give 500); otherwise one user and one profile carrying the phone, and the store constraints are kept. |
| ClientsSerializers.RegisterAddsUserAndProfile | clients/serializers.py:66-86 | Registration succeeds exactly when the tenant exists and user creation succeeds. It then adds exactly one new user, and that user's one new profile carries the phone. The user is bound to the named tenant with no admin flag, and tenants and domains stay unchanged. A failure changes nothing. |
| ClientsSerializers.UpdatedProfile | clients/serializers.py:124-129 | The profile keeps its user, takes a supplied phone or tenant, and keeps each one not supplied. |
| ClientsSerializers.UpdatedUser | clients/serializers.py:132-140 | The nested user takes each supplied field among e-mail, username, admin flag and staff flag, and keeps the rest; its tenant and superuser flag never change. |
| ClientsSerializers.UpdateProfile | clients/serializers.py:122-142 | The update per `UpdateEffect`: the profile is replaced by its updated form, and the linked user is updated only when the nested user dictionary is present and non-empty. The store constraints are kept. |
| ClientsSerializers.UpdateKeepsGood | clients/serializers.py:122-142 | Every profile update keeps the store's integrity constraints. |
| ClientsSerializers.EmptyUpdateIsIdentity | clients/serializers.py:124-132 | An update that supplies no key, or only an empty nested user, leaves the store unchanged. |
| ClientsSerializers.UpdateRepeatable | clients/serializers.py:127-140 | The same update sent twice leaves the store as the first one left it. |
| ClientsSerializers.UpdateTouchesOneProfile | clients/serializers.py:122-140 | An update changes no other profile and no user other than the linked one, and leaves tenants and domains unchanged. |
| ClientsViews.Login | clients/views.py:129-190 | No authenticated user gives 400. An authenticated user with one profile gets 200 and their admin flag; several profiles give 500 with no flag. Without a profile, the e-mail lookup decides: no match gives 401, several give 500, and one gives 200 for a tenant admin or 404 for anyone else. |
| ClientsViews.LoginNeverUnauthorized | clients/views.py:153-180 | The 401 branch is dead: the e-mail lookup always finds at least the authenticated user. |
| ClientsViews.RegisteredUserLogsIn | clients/views.py:139-151 | A member who has just registered logs in with 200 and admin flag false. |
| ClientsViews.UserView | clients/views.py:338-347 | The caller gets 200 with their own profile, or 200 with no profile when they have none; several profiles give 500. |
| ClientsViews.UserViewAlwaysOk | clients/views.py:338-347 | In a consistent store the profile view always answers 200. |
| ClientsViews.ProfileById | clients/views.py:353-367 | The tenant management get returns the profile with that id, with no admin or owner check, or 404. |
| ClientsViews.Target | clients/views.py:369-385 | A tenant admin targets the profile `user_id`. Anyone else targets their own profile, whatever `user_id` says. A miss is 404 and several own profiles are 500. |
| ClientsViews.TargetIgnoresUserId | clients/views.py:371-376 | For an ordinary user the `user_id` in the URL makes no difference to the target. |
| ClientsViews.TenantPatch | clients/views.py:369-396 | A target failure passes its status through, and invalid data gives 400, both with no change. Otherwise 200 with the target profile updated. The store constraints are kept. |
| ClientsViews.TenantDelete | clients/views.py:398-419 | A target failure passes its status through with no change. Otherwise 200 with that profile row removed and its user kept. |
| ClientsViews.NonAdminPatchStaysOwn | clients/views.py:371-376 | An ordinary user's patch leaves every other user's profiles and every other user unchanged. |
| ClientsViews.NonAdminCanPromoteSelf | clients/views.py:369-396 | An ordinary user's valid patch of their own profile that sets the nested `is_tenant_admin` succeeds and makes them an admin of the same tenant. |
| ClientsViews.SelfDeleteLocksOut | clients/views.py:398-419 | An ordinary user who deletes their own profile stays a user, but from then on logging in answers 404. |
| UsersSerializers.ValidateUsername | users/serializers.py:49-52 | A schema name already in use is rejected with 400; any other name passes unchanged. |
| UsersSerializers.HostName | users/serializers.py:64-66 | The host name is the longest colon-free prefix of the request host: it has no colon, and it stops only at the host's end or at a colon. |
| UsersSerializers.HostNameOfPlainHost | users/serializers.py:64-66 | A host without a colon is its own host name. |
| UsersSerializers.HostNameOfPortedHost | users/serializers.py:64-66 | A host with a colon loses at least the colon. |
| UsersSerializers.DomainFor | users/serializers.py:64-66 | The stored domain is the schema name, a dot, then a colon-free prefix of the request host that stops only at the host's end or at its first colon. |
| UsersSerializers.DomainHasNoPort | users/serializers.py:64-67 | The stored domain has no colon when the schema name has none, and is `username.host` when the host has none. |
| UsersSerializers.NewAdmin | users/serializers.py:70-78 | The tenant's admin user takes the form's e-mail and first name, belongs to the new tenant, and has the admin, superuser and staff flags. |
| UsersSerializers.ValidSchemaNameHasNoColon | users/serializers.py:56-67 | An accepted schema name has no colon, so the domain built from it is port-free. |
| UsersSerializers.SomeNamesRefused | users/serializers.py:39-56 | Names the serializer accepts are refused by django-tenants: `st.mary`, `st-mary`, a 64-character name, `PG_clinic`; `st_mary` is accepted. |
| UsersSerializers.InvalidSchemaNameRejected | users/serializers.py:56-61 | A free but refused schema name gives 500, leaves all four tables as they were, and the name stays free. |
| UsersSerializers.CreateTenant | users/serializers.py:54-85 | Creation per `CreateTenantEffect`: a taken schema name gives 500 and no change. A name django-tenants refuses gives 500; its row is inserted and deleted again, so only the tenant id is used up. A taken domain gives 500 with the tenant row kept. A failing `create_user` gives 500 with tenant and domain kept. Otherwise the tenant, its domain and its admin are created. The store constraints are kept. |
| UsersSerializers.CreateTenantAdds | users/serializers.py:54-85 | A successful creation happens only under an accepted schema name. It adds one tenant named after the form and one port-free primary domain for it. It also adds one admin user of that tenant, leaves profiles unchanged, and returns the full host and the schema name. |
| UsersSerializers.DomainClashLeavesTenant | users/serializers.py:56-67 | A creation under an accepted name that fails at the domain leaves the tenant row, so the schema name is taken from then on; domains and users are unchanged. |
| UsersSerializers.CreateTenantKeepsGood | users/serializers.py:54-85 | Every outcome of tenant creation keeps the store's integrity constraints. |
| UsersViews.TokenGate | users/views.py:59-67 | A token is issued exactly to a superuser without a tenant; anyone else gets 401. |
| UsersViews.TenantUrl | users/views.py:127 | The tenant URL is `http://`, the schema name and a dot, followed by the full request host, port included. |
| UsersViews.UrlMatchesDomainIffNoPort | users/views.py:127 | The answer's tenant URL names the stored domain exactly when the request host has no port. |
| UsersViews.TenantRegisterPost | users/views.py:118-136 | Invalid fields or a taken schema name give 400 and no change. Otherwise the creation runs (a name django-tenants refuses giving 500 and no tenant): on success 201 with the tenant URL, and on failure its status and no URL. |
| UsersViews.RegisterOutcomes | users/views.py:118-136 | Registration answers only 201, 400 or 500. 400 happens exactly on invalid input and creates nothing. Past validation, the schema name is taken afterwards exactly when django-tenants accepts it; a refused name gives 500 with all tables unchanged. 201 needs an accepted name. A URL is returned exactly on 201. |
| UsersViews.RegisteredAdminHasNoToken | users/views.py:59-67 | The admin a registration creates is a superuser with a tenant, so the token gate answers 401. |
| UsersViews.CheckTenant | users/views.py:140-146 | The check answers 200 with `true` exactly when a tenant has the requested schema name; otherwise 404 with `false`, a missing parameter included. |
| UsersViews.CheckAgreesWithValidation | users/views.py:140-146 | The check finds exactly the names that schema-name validation rejects. |
| UsersViews.RegisteredTenantFound | users/views.py:123-136 | After a registration past validation, whether or not the rest succeeded, the check finds the tenant exactly when django-tenants accepted its name, and answers 404 otherwise. |
| Signals.PublicTenant | users/signals.py:31 | The seeded tenant has schema `public`, name `Public`, and no address or registration number. |
| Signals.CreateDefaultTenant | users/signals.py:28-37 | Seeding per `SeedEffect`. An existing public tenant gives no change. Otherwise the public tenant is inserted, then its primary production domain, unless that host name is already held. The store constraints are kept. |
| Signals.SeedProvidesPublic | users/signals.py:28-37 | After seeding a public tenant exists. When seeding created one on a free host name, exactly one domain was added: the production host, primary, for the public tenant. |
| Signals.SeedIdempotent | users/signals.py:29 | Seeding a second time changes nothing and succeeds. |
| Signals.SeedLeavesAccounts | users/signals.py:28-37 | Seeding never touches users or profiles and never removes a tenant or a domain. |
| Signals.PublicNameReserved | users/signals.py:29-31 | After seeding, schema-name validation rejects `public`. |

## Left out

- **pharmacy_module.** It is not part of this model. Each of its handlers
  assigns to a local name equal to its model class, so every call fails
  before any query runs. Its models also have no tenant or user column.
- **leave_management** is not part of this model.
- **The shadowed first definitions.** Several management view classes define
  `get`/`patch`/`delete` twice. Only the later, effective definitions are
  modelled.
- **The `post` methods of the management view classes.** Their routes pass
  an id keyword that the signature does not accept.
- **URL routing and keyword mismatches.** The model calls each view method
  with its id directly.
- **Elasticsearch indexing** is a foreign call: `add_blog_to_index` after a
  blog create (clients/views.py:93-105, called at 206) and
  `create_index_for_tenant` after a tenant registration (users/views.py:99-106,
  called at 133). The model assumes both succeed. A failure would answer 500
  after the blog, or the tenant, domain and admin, were already stored, where
  the model answers 200 or 201.
- **Authentication is an input, not modelled.** This covers the e-mail
  authentication backend, password hashing, token issue, and the base
  credential check of the token serializer. The login takes the
  authenticated user as `auth`, and the token gate takes the user whose
  credentials were accepted.
- **Serializer field validation** is the boolean input `valid` (`fieldsValid`
  for tenant registration), standing for the whole of `is_valid()`. The model
  and serializer declarations themselves, such as field lists and choices,
  are not modelled.
- **Unique columns and validation.** A `ModelSerializer` checks a model's
  unique columns in `is_valid()`, so a non-null `fees` already held by a
  stored appointment makes `valid` false and the answer 400
  (`Resources.HeldFeesFailsValidation`). The `Clash` branch of `CreateEffect`
  and `PatchEffect` (the integrity error, 500) stands for a row stored by
  another request between validation and save. The model does not model
  concurrent requests, so that interleaving is taken as given, not derived.
- **The patient serializer does not match the patient model.** `PatientSerializer`
  (patients/serializers.py:7) lists fields such as `patient_id`,
  `guardian_name` and `updated_at` that `Patient` (patients/models.py:5-12)
  lacks. DRF rejects such a serializer when it builds its fields, so as
  written `PatientView.post` and `get`, `FetchAllPatients.get`, and the
  found-row paths of the patient management `get` and `patch` answer 500. The
  model describes the patient views as if the serializer matched the model;
  only delete and the 404 paths behave as modelled as written.
- **`create_user` failure** is the boolean input `createOk`. Its defaults
  (flags false unless passed) come from the custom user manager, which is
  not part of this model.
- **The SaaS admin middleware** (asynchronous JWT decoding) and the DRF
  permission classes are not part of this model. Some views have their
  permission classes commented out, so anonymous callers are not treated
  separately.
- **Schema separation.** django-tenants' per-schema tables are stood in for
  by the tenant column of one shared table. The resource apps are served
  through the tenant URL configuration, so each request sees only its own
  schema's tables. Claims in this model about rows of "another tenant" (the
  admin lookup, the patient and blog lists, "fetch all", the staff one-to-one
  check) hold for the stand-in; with per-schema tables those rows are not
  reachable from the request. The request tenant of user registration is taken to
  be looked up by its schema name.
- **Database cascades** (`on_delete`) are not modelled. Deleting a profile,
  patient or tenant removes only that row.
- **Non-numeric ids.** A non-numeric `patient` query parameter raises before
  any query; the model's parameter is already an id, empty, or absent.
- **The generic list/create views and `index` views** of `users` are not
  part of this model.
- **Uniqueness of user e-mail and username.** The store does not enforce it;
  the custom user model's own constraints lie outside the modelled handlers.
  The login instead handles repeated e-mails explicitly, as the
  multiple-results branch.
- **The staff one-to-one constraint** on `Employee.user` is checked across
  the model's whole employee table, not per tenant. With per-schema tables
  it holds within each schema's employee table.
- **The error bodies, log lines and response messages** are not modelled;
  only statuses and the values the client relies on are.
- UsersSerializers.CreateTenant: for a free, accepted schema name, creating
  the PostgreSQL schema and migrating it are taken to succeed; their own
  failures (which would also delete the row) are not modelled.
- OwnedTable.PatchRepeatable: the auto-managed `created_at` (`auto_now_add`)
  and `updated_at` (`auto_now`) columns are not modelled, and the model has
  no clock. They are set on appointments, billing, OPD, IPD and IPD bills,
  and radiology and radiology bills (appointments_list/models.py:47-48,
  billing_counter/models.py:38-39, opd_module/models.py:42-43,
  ipd_module/models.py:35-36 and 89-90, radiology_module/models.py:22-23 and
  51-52); patients carry `created_at` only (patients/models.py:12). A repeated
  patch on a later date changes `updated_at`, so the fixed point holds for
  the modelled columns only. `NewRecord` and `Patched` likewise set neither
  stamp.
