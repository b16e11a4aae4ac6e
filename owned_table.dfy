/** The owned, tenant-tagged record table that every resource module of the
    backend repeats (patients, appointments, billing, OPD, IPD and its bills,
    pathology and its bills, radiology and its bills, blogs): the list
    filters, the create that stamps owner and tenant, and the effective
    management views whose get/patch/delete sit behind the admin-or-owner
    lookup. */
module OwnedTable {
  import opened Common

  /** One row: the creator (`user`), the tenant column, the optional
      `patient` foreign key and the remaining domain columns. */
  datatype Record = Record(user: Id, tenant: Id, patient: Option<Id>, fields: Fields)

  /** A request body: an optional new `patient` and the columns supplied. */
  datatype Payload = Payload(patient: Update<Option<Id>>, fields: Fields)

  /** The `patient` query parameter of a list view, after Django has turned
      it into an integer: missing (`None` in Python), present but empty
      (`""`), or a patient id. */
  datatype PatientParam = Absent | Blank | Given(id: Id)

  type Rows = map<Id, Record>

  /** The row `serializer.save(user=request.user, tenant=request.tenant)`
      inserts: owner and tenant come from the request, never from the body. */
  function NewRecord(ctx: Ctx, data: Payload): (r: Record)
    ensures r.user == ctx.caller.id && r.tenant == ctx.tenant
    ensures r.fields == data.fields
    ensures r.patient == Apply(data.patient, None)
  {
    Record(ctx.caller.id, ctx.tenant, Apply(data.patient, None), data.fields)
  }

  /** The row a successful partial update stores: supplied columns merged
      into the old ones, then `user` and `tenant` overwritten by the
      caller's, as `serializer.save(user=..., tenant=...)` does. */
  function Patched(rec: Record, ctx: Ctx, data: Payload): (r: Record)
    ensures r.user == ctx.caller.id && r.tenant == ctx.tenant
    ensures r.patient == Apply(data.patient, rec.patient)
    ensures forall c :: Column(r.fields, c) == if c in data.fields then data.fields[c] else Column(rec.fields, c)
  {
    Record(ctx.caller.id, ctx.tenant, Apply(data.patient, rec.patient), Merge(rec.fields, data.fields))
  }

  /** The lookup at the head of the effective get/patch/delete: a tenant
      admin gets the row by id alone (the tenant column is not consulted),
      anyone else gets it by id and `user == request.user`; a miss is 404. */
  function Gate(rows: Rows, caller: Caller, id: Id): (r: Result<Record>)
    ensures r.Success? <==> id in rows && (caller.isTenantAdmin || rows[id].user == caller.id)
    ensures r.Success? ==> r.value == rows[id]
    ensures r.Failure? ==> r.status == NotFound
  {
    if caller.isTenantAdmin then
      if id in rows then Success(rows[id]) else Failure(NotFound)
    else
      if id in rows && rows[id].user == caller.id then Success(rows[id]) else Failure(NotFound)
  }

  /** `filter(tenant=request.tenant)`, narrowed by `patient__id` when the
      query parameter is non-empty. */
  function ListByTenant(rows: Rows, tenant: Id, param: PatientParam): (r: Rows)
    ensures forall i :: i in r <==> i in rows && rows[i].tenant == tenant && (param.Given? ==> rows[i].patient == Some(param.id))
    ensures forall i | i in r :: r[i] == rows[i]
  {
    match param
    case Given(p) => map i | i in rows && rows[i].tenant == tenant && rows[i].patient == Some(p) :: rows[i]
    case _ => map i | i in rows && rows[i].tenant == tenant :: rows[i]
  }

  /** `filter(user=request.user)`: the rows the caller created, in any tenant of
      the single-table stand-in. */
  function ListByUser(rows: Rows, user: Id): (r: Rows)
    ensures forall i :: i in r <==> i in rows && rows[i].user == user
    ensures forall i | i in r :: r[i] == rows[i]
  {
    map i | i in rows && rows[i].user == user :: rows[i]
  }

  /** Another row (not `except`) already holds one of the non-null values
      that `fields` gives a UNIQUE column. */
  predicate Clash(rows: Rows, unique: set<string>, fields: Fields, except: Option<Id>)
  {
    exists i, c :: i in rows && Some(i) != except && c in unique && Column(fields, c) != Null && Column(rows[i].fields, c) == Column(fields, c)
  }

  /** The database's UNIQUE constraints: no two rows share a non-null value
      of a unique column (NULLs never collide). */
  ghost predicate UniqueHolds(rows: Rows, unique: set<string>)
  {
    forall i, j, c :: i in rows && j in rows && i != j && c in unique && Column(rows[i].fields, c) != Null ==> Column(rows[i].fields, c) != Column(rows[j].fields, c)
  }

  /** What the list view's `post` does to the table and answers. */
  ghost predicate CreateEffect(before: Rows, after: Rows, next: Id, unique: set<string>, created: Status,
                               ctx: Ctx, data: Payload, valid: bool, st: Status, id: Option<Id>)
  {
    if !valid then st == BadRequest && id == None && after == before
    else if Clash(before, unique, data.fields, None) then st == ServerError && id == None && after == before
    else st == created && id == Some(next) && next !in before && after == before[next := NewRecord(ctx, data)]
  }

  /** What the effective `patch` does: 404 before the body is looked at, 400
      on invalid data, an uncaught integrity error (500) on a unique clash,
      and otherwise the merged, re-stamped row replaces the old one. */
  ghost predicate PatchEffect(before: Rows, after: Rows, unique: set<string>, ctx: Ctx, id: Id,
                              data: Payload, valid: bool, st: Status)
  {
    match Gate(before, ctx.caller, id)
    case Failure(_) => st == NotFound && after == before
    case Success(rec) =>
      if !valid then st == BadRequest && after == before
      else if Clash(before, unique, Patched(rec, ctx, data).fields, Some(id)) then st == ServerError && after == before
      else st == Ok && after == before[id := Patched(rec, ctx, data)]
  }

  /** What the effective `delete` does. */
  ghost predicate DeleteEffect(before: Rows, after: Rows, caller: Caller, id: Id, st: Status)
  {
    if Gate(before, caller, id).Failure? then st == NotFound && after == before
    else st == Ok && after == before - {id}
  }

  /** One resource table, as the ORM keeps it. */
  class Table {
    var rows: Rows
    /** The id the next insert receives (auto-increment). */
    var nextId: Id
    /** Columns declared `unique=True` on the model. */
    const unique: set<string>
    /** The status the list view's `post` answers on success. */
    const created: Status

    ghost predicate Valid()
      reads this
    {
      (forall i | i in rows :: i < nextId) && UniqueHolds(rows, unique)
    }

    constructor (unique: set<string>, created: Status)
      ensures Valid() && rows == map[] && this.unique == unique && this.created == created
    {
      rows := map[];
      nextId := 1;
      this.unique := unique;
      this.created := created;
    }

    method Create(ctx: Ctx, data: Payload, valid: bool) returns (st: Status, id: Option<Id>)
      requires Valid()
      modifies this
      ensures Valid()
      ensures CreateEffect(old(rows), rows, old(nextId), unique, created, ctx, data, valid, st, id)
    {
      if !valid {
        return BadRequest, None;
      }
      if Clash(rows, unique, data.fields, None) {
        return ServerError, None;
      }
      id := Some(nextId);
      rows := rows[nextId := NewRecord(ctx, data)];
      nextId := nextId + 1;
      st := created;
    }

    method Patch(ctx: Ctx, id: Id, data: Payload, valid: bool) returns (st: Status)
      requires Valid()
      modifies this
      ensures Valid() && nextId == old(nextId)
      ensures PatchEffect(old(rows), rows, unique, ctx, id, data, valid, st)
    {
      var found := Gate(rows, ctx.caller, id);
      if found.Failure? {
        return NotFound;
      }
      if !valid {
        return BadRequest;
      }
      var rec := Patched(found.value, ctx, data);
      if Clash(rows, unique, rec.fields, Some(id)) {
        return ServerError;
      }
      rows := rows[id := rec];
      st := Ok;
    }

    method Delete(caller: Caller, id: Id) returns (st: Status)
      requires Valid()
      modifies this
      ensures Valid() && nextId == old(nextId)
      ensures DeleteEffect(old(rows), rows, caller, id, st)
    {
      if Gate(rows, caller, id).Failure? {
        return NotFound;
      }
      rows := rows - {id};
      st := Ok;
    }
  }

  /** A created row is at once visible to its creator through the lookup,
      in the creator's own list and in the request tenant's list. */
  lemma CreateThenVisible(before: Rows, after: Rows, next: Id, unique: set<string>, created: Status,
                          ctx: Ctx, data: Payload, valid: bool, st: Status, id: Option<Id>)
    requires CreateEffect(before, after, next, unique, created, ctx, data, valid, st, id)
    requires id.Some?
    ensures Gate(after, ctx.caller, id.value) == Success(NewRecord(ctx, data))
    ensures id.value in ListByTenant(after, ctx.tenant, Absent)
    ensures id.value in ListByUser(after, ctx.caller.id)
    ensures |ListByTenant(after, ctx.tenant, Absent)| == |ListByTenant(before, ctx.tenant, Absent)| + 1
  {
    var n := id.value;
    var rec := NewRecord(ctx, data);
    assert after == before[n := rec];
    assert ListByTenant(after, ctx.tenant, Absent) == ListByTenant(before, ctx.tenant, Absent)[n := rec];
  }

  /** A successful delete takes exactly one row out of the table and out of
      every list that showed it; a second delete of the same id is 404 and
      changes nothing. */
  lemma DeleteRemovesOne(r0: Rows, r1: Rows, r2: Rows, caller: Caller, again: Caller, id: Id, s1: Status, s2: Status)
    requires DeleteEffect(r0, r1, caller, id, s1) && s1 == Ok
    requires DeleteEffect(r1, r2, again, id, s2)
    ensures id in r0 && id !in r1 && |r1| == |r0| - 1
    ensures forall j | j != id :: (j in r1 <==> j in r0) && (j in r1 ==> r1[j] == r0[j])
    ensures forall t, p :: ListByTenant(r1, t, p) == ListByTenant(r0, t, p) - {id}
    ensures s2 == NotFound && r2 == r1
  {
    assert r1.Keys == r0.Keys - {id};
    forall t, p ensures ListByTenant(r1, t, p) == ListByTenant(r0, t, p) - {id} {
      ListMinus(r0, id, t, p);
    }
  }

  lemma ListMinus(rows: Rows, id: Id, t: Id, p: PatientParam)
    ensures ListByTenant(rows - {id}, t, p) == ListByTenant(rows, t, p) - {id}
  {
  }

  /** After a successful patch the row belongs to the caller and sits in the
      request tenant's list and in no other tenant's list; an ordinary user
      who owned it and did not make the patch can no longer open it. */
  lemma PatchRestamps(before: Rows, after: Rows, unique: set<string>, ctx: Ctx, id: Id,
                      data: Payload, valid: bool, st: Status, formerOwner: Caller)
    requires PatchEffect(before, after, unique, ctx, id, data, valid, st) && st == Ok
    requires !formerOwner.isTenantAdmin && formerOwner.id != ctx.caller.id
    ensures id in before && id in after && after[id] == Patched(before[id], ctx, data)
    ensures Gate(after, ctx.caller, id).Success?
    ensures forall t, p :: t != ctx.tenant ==> id !in ListByTenant(after, t, p)
    ensures id in ListByTenant(after, ctx.tenant, Absent)
    ensures Gate(after, formerOwner, id).Failure?
    ensures forall j | j != id && j in before :: j in after && after[j] == before[j]
  {
  }

  /** Sending the same successful partial update twice leaves the table as
      the first one left it. */
  lemma PatchRepeatable(r0: Rows, r1: Rows, r2: Rows, unique: set<string>, ctx: Ctx, id: Id,
                        data: Payload, s1: Status, s2: Status)
    requires PatchEffect(r0, r1, unique, ctx, id, data, true, s1) && s1 == Ok
    requires PatchEffect(r1, r2, unique, ctx, id, data, true, s2)
    ensures s2 == Ok && r2 == r1
  {
    var rec := Patched(r0[id], ctx, data);
    assert r1 == r0[id := rec];
    assert Gate(r1, ctx.caller, id) == Success(rec);
    MergeIdempotent(r0[id].fields, data.fields);
    assert Patched(rec, ctx, data) == rec;
  }

  /** For an ordinary user the lookup opens exactly the rows of their own
      list (`filter(user=...)`); for a tenant admin it opens every row. */
  lemma GateMatchesOwnList(rows: Rows, caller: Caller, id: Id)
    ensures !caller.isTenantAdmin ==> (Gate(rows, caller, id).Success? <==> id in ListByUser(rows, caller.id))
    ensures caller.isTenantAdmin ==> (Gate(rows, caller, id).Success? <==> id in rows)
  {
  }

  /** Lists of two different tenants never share a row. */
  lemma TenantListsDisjoint(rows: Rows, t1: Id, t2: Id, p1: PatientParam, p2: PatientParam)
    requires t1 != t2
    ensures ListByTenant(rows, t1, p1).Keys !! ListByTenant(rows, t2, p2).Keys
  {
  }

  /** An empty parameter filters like a missing one, and a patient filter
      only narrows the tenant list. */
  lemma PatientFilterNarrows(rows: Rows, t: Id, p: Id)
    ensures ListByTenant(rows, t, Blank) == ListByTenant(rows, t, Absent)
    ensures ListByTenant(rows, t, Given(p)).Keys <= ListByTenant(rows, t, Absent).Keys
  {
  }

  /** The admin lookup does not consult the tenant column: a tenant admin
      opens every row that the request tenant's list does not show, that
      is, every row of another tenant in the same table. */
  lemma AdminLookupCrossesTenants(rows: Rows, admin: Caller, tenant: Id, id: Id, p: PatientParam)
    requires admin.isTenantAdmin && id in rows && rows[id].tenant != tenant
    ensures Gate(rows, admin, id) == Success(rows[id])
    ensures id !in ListByTenant(rows, tenant, p)
  {
  }

  /** Invalid data is 400 and an integrity error 500, and neither adds a
      row; a created row gets a fresh id, carries the caller and the request
      tenant, and is the only row added. */
  lemma CreateOutcomes(before: Rows, after: Rows, next: Id, unique: set<string>, created: Status,
                       ctx: Ctx, data: Payload, valid: bool, st: Status, id: Option<Id>)
    requires CreateEffect(before, after, next, unique, created, ctx, data, valid, st, id)
    requires created != BadRequest && created != ServerError
    ensures st == BadRequest <==> !valid
    ensures st == ServerError <==> valid && Clash(before, unique, data.fields, None)
    ensures id.None? <==> after == before
    ensures id.Some? ==> st == created && id.value !in before && after.Keys == before.Keys + {id.value}
                         && after[id.value].user == ctx.caller.id && after[id.value].tenant == ctx.tenant
                         && forall j | j in before :: after[j] == before[j]
  {
    if id.Some? {
      assert id.value in after && id.value !in before;
    }
  }

  /** A lookup miss is 404 whatever the body says; invalid data on a found
      row is 400; only an answer of 200 changes the table, and then only
      the looked-up row. */
  lemma PatchOutcomes(before: Rows, after: Rows, unique: set<string>, ctx: Ctx, id: Id,
                      data: Payload, valid: bool, st: Status)
    requires PatchEffect(before, after, unique, ctx, id, data, valid, st)
    ensures st == NotFound <==> Gate(before, ctx.caller, id).Failure?
    ensures st == BadRequest <==> Gate(before, ctx.caller, id).Success? && !valid
    ensures st != Ok ==> after == before
    ensures st == Ok ==> after.Keys == before.Keys && after[id] == Patched(before[id], ctx, data)
                         && forall j | j in before && j != id :: after[j] == before[j]
  {
  }
}
