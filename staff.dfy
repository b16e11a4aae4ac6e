/** The staff module: roles and employees of a tenant. Unlike the resource
    tables, every lookup here is by id and request tenant, with no split
    between tenant admins and ordinary users, and an employee row is tied
    one-to-one to the user who created it. */
module Staff {
  import opened Common

  /** A role; its tenant column is nullable, though the view always fills it. */
  datatype Role = Role(tenant: Option<Id>, name: string)

  /** An employee: its tenant, the user it is bound to (one-to-one) and the
      columns the create/update serializer writes (name, email, phone,
      address, role, date_of_joining). */
  datatype Employee = Employee(tenant: Id, user: Id, fields: Fields)

  type Roles = map<Id, Role>
  type Employees = map<Id, Employee>

  /** `RoleView.get`: `Role.objects.filter(tenant=request.tenant)`. */
  function RolesOf(roles: Roles, tenant: Id): (r: Roles)
    ensures forall i :: i in r <==> i in roles && roles[i].tenant == Some(tenant)
    ensures forall i | i in r :: r[i] == roles[i]
  {
    map i | i in roles && roles[i].tenant == Some(tenant) :: roles[i]
  }

  /** `EmployeeListView.get`: `Employee.objects.filter(tenant=request.tenant)`. */
  function EmployeesOf(emps: Employees, tenant: Id): (r: Employees)
    ensures forall i :: i in r <==> i in emps && emps[i].tenant == tenant
    ensures forall i | i in r :: r[i] == emps[i]
  {
    map i | i in emps && emps[i].tenant == tenant :: emps[i]
  }

  /** `Employee.objects.get(id=employee_id, tenant=request.tenant)`, with
      `DoesNotExist` answered by 404. Ids are primary keys, so at most one
      row matches. */
  function FindEmployee(emps: Employees, id: Id, tenant: Id): (r: Result<Employee>)
    ensures r.Success? <==> id in emps && emps[id].tenant == tenant
    ensures r.Success? ==> r.value == emps[id]
    ensures r.Failure? ==> r.status == NotFound
  {
    if id in emps && emps[id].tenant == tenant then Success(emps[id]) else Failure(NotFound)
  }

  /** Some employee row is already bound to `user`. */
  predicate Bound(emps: Employees, user: Id)
  {
    exists i :: i in emps && emps[i].user == user
  }

  /** The one-to-one constraint on `Employee.user`. */
  ghost predicate OnePerUser(emps: Employees)
  {
    forall i, j | i in emps && j in emps && emps[i].user == emps[j].user :: i == j
  }

  /** What `RoleView.post` does: 201 with the request tenant stamped, or 400. */
  ghost predicate AddRoleEffect(before: Roles, after: Roles, next: Id, ctx: Ctx, name: string, valid: bool, st: Status)
  {
    if !valid then st == BadRequest && after == before
    else st == Created && next !in before && after == before[next := Role(Some(ctx.tenant), name)]
  }

  /** What `EmployeeListView.post` does: 400 on invalid data; 400 again when
      the caller is already bound to an employee (the integrity error is
      re-raised as a DRF `ValidationError`); otherwise 201 and a row bound to
      the caller in the request tenant. */
  ghost predicate AddEmployeeEffect(before: Employees, after: Employees, next: Id, ctx: Ctx, fields: Fields, valid: bool, st: Status)
  {
    if !valid then st == BadRequest && after == before
    else if Bound(before, ctx.caller.id) then st == BadRequest && after == before
    else st == Created && next !in before && after == before[next := Employee(ctx.tenant, ctx.caller.id, fields)]
  }

  /** What `EmployeeManagementView.patch` does: 404 when the id is not an
      employee of the request tenant, 400 on invalid data, otherwise the
      supplied columns are merged and `tenant` and `user` stay as they were. */
  ghost predicate PatchEmployeeEffect(before: Employees, after: Employees, ctx: Ctx, id: Id, fields: Fields, valid: bool, st: Status)
  {
    match FindEmployee(before, id, ctx.tenant)
    case Failure(_) => st == NotFound && after == before
    case Success(e) =>
      if !valid then st == BadRequest && after == before
      else st == Ok && after == before[id := e.(fields := Merge(e.fields, fields))]
  }

  /** What `EmployeeManagementView.delete` does. */
  ghost predicate DeleteEmployeeEffect(before: Employees, after: Employees, ctx: Ctx, id: Id, st: Status)
  {
    if FindEmployee(before, id, ctx.tenant).Failure? then st == NotFound && after == before
    else st == Ok && after == before - {id}
  }

  /** The role and employee tables. */
  class Directory {
    var roles: Roles
    var nextRole: Id
    var employees: Employees
    var nextEmployee: Id

    ghost predicate Valid()
      reads this
    {
      && (forall i | i in roles :: i < nextRole)
      && (forall i | i in employees :: i < nextEmployee)
      && OnePerUser(employees)
    }

    constructor ()
      ensures Valid() && roles == map[] && employees == map[]
    {
      roles, nextRole := map[], 1;
      employees, nextEmployee := map[], 1;
    }

    /** `RoleView.post`. */
    method AddRole(ctx: Ctx, name: string, valid: bool) returns (st: Status)
      requires Valid()
      modifies this
      ensures Valid() && employees == old(employees)
      ensures AddRoleEffect(old(roles), roles, old(nextRole), ctx, name, valid, st)
    {
      if !valid {
        return BadRequest;
      }
      roles := roles[nextRole := Role(Some(ctx.tenant), name)];
      nextRole := nextRole + 1;
      st := Created;
    }

    /** `EmployeeListView.post`. */
    method AddEmployee(ctx: Ctx, fields: Fields, valid: bool) returns (st: Status)
      requires Valid()
      modifies this
      ensures Valid() && roles == old(roles)
      ensures AddEmployeeEffect(old(employees), employees, old(nextEmployee), ctx, fields, valid, st)
    {
      if !valid {
        return BadRequest;
      }
      if Bound(employees, ctx.caller.id) {
        return BadRequest;
      }
      employees := employees[nextEmployee := Employee(ctx.tenant, ctx.caller.id, fields)];
      nextEmployee := nextEmployee + 1;
      st := Created;
    }

    /** `EmployeeManagementView.patch`. */
    method PatchEmployee(ctx: Ctx, id: Id, fields: Fields, valid: bool) returns (st: Status)
      requires Valid()
      modifies this
      ensures Valid() && roles == old(roles) && nextEmployee == old(nextEmployee)
      ensures PatchEmployeeEffect(old(employees), employees, ctx, id, fields, valid, st)
    {
      var found := FindEmployee(employees, id, ctx.tenant);
      if found.Failure? {
        return NotFound;
      }
      if !valid {
        return BadRequest;
      }
      employees := employees[id := found.value.(fields := Merge(found.value.fields, fields))];
      st := Ok;
    }

    /** `EmployeeManagementView.delete`. */
    method DeleteEmployee(ctx: Ctx, id: Id) returns (st: Status)
      requires Valid()
      modifies this
      ensures Valid() && roles == old(roles) && nextEmployee == old(nextEmployee)
      ensures DeleteEmployeeEffect(old(employees), employees, ctx, id, st)
    {
      if FindEmployee(employees, id, ctx.tenant).Failure? {
        return NotFound;
      }
      employees := employees - {id};
      st := Ok;
    }
  }

  /** A created role is listed for the request tenant and for no other. */
  lemma RoleListedInOwnTenant(before: Roles, after: Roles, next: Id, ctx: Ctx, name: string, valid: bool, st: Status, other: Id)
    requires AddRoleEffect(before, after, next, ctx, name, valid, st) && st == Created
    requires other != ctx.tenant
    ensures next in RolesOf(after, ctx.tenant) && next !in RolesOf(after, other)
    ensures RolesOf(after, other) == RolesOf(before, other)
  {
  }

  /** Once a caller is bound to an employee, a second create by the same
      caller, from any tenant and with any data, adds nothing and answers 400. */
  lemma SecondEmployeeRejected(r0: Employees, r1: Employees, r2: Employees, n1: Id, n2: Id, ctx1: Ctx, ctx2: Ctx,
                               f1: Fields, f2: Fields, v2: bool, s1: Status, s2: Status)
    requires AddEmployeeEffect(r0, r1, n1, ctx1, f1, true, s1) && s1 == Created
    requires AddEmployeeEffect(r1, r2, n2, ctx2, f2, v2, s2)
    requires ctx2.caller.id == ctx1.caller.id
    ensures s2 == BadRequest && r2 == r1
  {
    assert r1[n1].user == ctx1.caller.id;
  }

  /** The lookup of the management views opens exactly the employees that
      the request tenant's list shows, whoever asks. */
  lemma FindMatchesList(emps: Employees, id: Id, tenant: Id)
    ensures FindEmployee(emps, id, tenant).Success? <==> id in EmployeesOf(emps, tenant)
  {
  }

  /** A successful employee patch keeps the row's tenant and user, so it
      stays in the same tenant's list; only the supplied columns change. */
  lemma PatchKeepsBinding(before: Employees, after: Employees, ctx: Ctx, id: Id, fields: Fields, valid: bool, st: Status)
    requires PatchEmployeeEffect(before, after, ctx, id, fields, valid, st)
    ensures after.Keys == before.Keys
    ensures forall i | i in before :: after[i].tenant == before[i].tenant && after[i].user == before[i].user
    ensures forall t :: EmployeesOf(after, t).Keys == EmployeesOf(before, t).Keys
    ensures st == Ok ==> forall c :: Column(after[id].fields, c) == if c in fields then fields[c] else Column(before[id].fields, c)
  {
  }

  /** Patching or deleting an employee of another tenant is 404 and changes
      nothing, even for a tenant admin. */
  lemma OtherTenantUntouched(before: Employees, after: Employees, after2: Employees, ctx: Ctx, id: Id,
                             fields: Fields, valid: bool, st: Status, st2: Status)
    requires id in before && before[id].tenant != ctx.tenant
    requires PatchEmployeeEffect(before, after, ctx, id, fields, valid, st)
    requires DeleteEmployeeEffect(before, after2, ctx, id, st2)
    ensures st == NotFound && after == before
    ensures st2 == NotFound && after2 == before
  {
  }

  /** A delete removes exactly one employee from its tenant's list and
      leaves every other tenant's list as it was. */
  lemma DeleteEmployeeRemovesOne(before: Employees, after: Employees, ctx: Ctx, id: Id, st: Status, other: Id)
    requires DeleteEmployeeEffect(before, after, ctx, id, st) && st == Ok
    requires other != ctx.tenant
    ensures id in before && after == before - {id}
    ensures |EmployeesOf(after, ctx.tenant)| == |EmployeesOf(before, ctx.tenant)| - 1
    ensures EmployeesOf(after, other) == EmployeesOf(before, other)
  {
    assert EmployeesOf(after, ctx.tenant) == EmployeesOf(before, ctx.tenant) - {id};
  }
}
