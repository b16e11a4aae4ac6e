/** The eleven record tables of the resource modules and the quirks each
    module's views add to the shared shape: which rows the list view shows,
    which columns are unique, and what the create answers. */
module Resources {
  import opened Common
  import opened OwnedTable

  datatype Resource =
    | Patient       // patients
    | Appointment   // appointments_list
    | Billing       // billing_counter
    | Opd           // opd_module
    | Ipd | IpdBill                       // ipd_module
    | Pathology | PathologyBill           // pathology_module
    | Radiology | RadiologyBill           // radiology_module
    | Blog          // clients

  /** Patients and blogs are listed by `filter(user=request.user)`; every
      other list view filters on the request tenant. */
  predicate ListsOwnRows(res: Resource)
  {
    res == Patient || res == Blog
  }

  /** Columns declared `unique=True`: only an appointment's `fees`. A
      `ModelSerializer` over such a model checks them in `is_valid()`, so a
      value already held makes the data invalid (400); the integrity error
      of the save is left for a row stored by another request in between. */
  function UniqueColumns(res: Resource): set<string>
  {
    if res == Appointment then {"fees"} else {}
  }

  /** `BlogView.post` answers 200; every other create answers 201. */
  function CreatedStatus(res: Resource): (st: Status)
    ensures st.Code() == (if res == Blog then 200 else 201)
  {
    if res == Blog then Ok else Created
  }

  /** The list view's `get` for resource `res`. */
  function ListView(res: Resource, rows: Rows, ctx: Ctx, param: PatientParam): (r: Rows)
    ensures forall i :: i in r <==>
              && i in rows
              && (if ListsOwnRows(res) then rows[i].user == ctx.caller.id
                  else rows[i].tenant == ctx.tenant && (param.Given? ==> rows[i].patient == Some(param.id)))
    ensures forall i | i in r :: r[i] == rows[i]
  {
    if ListsOwnRows(res) then ListByUser(rows, ctx.caller.id) else ListByTenant(rows, ctx.tenant, param)
  }

  /** `FetchAllPatients.get` and `FetchAllBlogs.get`: `objects.all()`, every
      row of the table with its stored values. */
  function FetchAll(rows: Rows): (r: Rows)
    ensures r.Keys == rows.Keys && forall i | i in r :: r[i] == rows[i]
    ensures forall res, ctx, p :: ListView(res, rows, ctx, p).Keys <= r.Keys
  {
    rows
  }

  /** Patient and blog lists depend neither on the request tenant nor on a
      `patient` parameter: only on who asks. */
  lemma OwnListIgnoresTenant(res: Resource, rows: Rows, c: Caller, t1: Id, t2: Id, p1: PatientParam, p2: PatientParam)
    requires ListsOwnRows(res)
    ensures ListView(res, rows, Ctx(c, t1), p1) == ListView(res, rows, Ctx(c, t2), p2)
    ensures forall i :: i in ListView(res, rows, Ctx(c, t1), p1) <==> i in rows && rows[i].user == c.id
  {
  }

  /** The other lists are tenant-wide: they do not depend on who asks. */
  lemma TenantListIgnoresCaller(res: Resource, rows: Rows, c1: Caller, c2: Caller, t: Id, p: PatientParam)
    requires !ListsOwnRows(res)
    ensures ListView(res, rows, Ctx(c1, t), p) == ListView(res, rows, Ctx(c2, t), p)
  {
  }

  /** An ordinary user of the tenant who did not create a row sees it in any
      tenant-wide list, yet the management lookup answers 404 (the general
      form of the lookup is `GateMatchesOwnList`). */
  lemma ListWiderThanGate(res: Resource, rows: Rows, ctx: Ctx, id: Id)
    requires !ListsOwnRows(res) && !ctx.caller.isTenantAdmin
    requires id in rows && rows[id].tenant == ctx.tenant && rows[id].user != ctx.caller.id
    ensures id in ListView(res, rows, ctx, Absent) && id in ListView(res, rows, ctx, Blank)
    ensures Gate(rows, ctx.caller, id) == Failure(NotFound)
  {
  }

  const AllResources: seq<Resource> := [Patient, Appointment, Billing, Opd, Ipd, IpdBill,
                                        Pathology, PathologyBill, Radiology, RadiologyBill, Blog]

  /** All resource tables of one deployment; each is its own object, so a
      write to one leaves every other table as it was. */
  class Hospital {
    const tables: map<Resource, Table>

    ghost predicate Valid()
      reads this, tables.Values
    {
      && (forall r: Resource :: r in tables)
      && (forall r1, r2 | r1 in tables && r2 in tables && r1 != r2 :: tables[r1] != tables[r2])
      && (forall r | r in tables :: tables[r].Valid() && tables[r].unique == UniqueColumns(r) && tables[r].created == CreatedStatus(r))
    }

    constructor ()
      ensures Valid()
      ensures forall r :: tables[r].rows == map[]
    {
      // Construction scaffolding, not part of the source: Django creates the
      // eleven tables at migration time; this loop allocates one empty,
      // distinct table per resource so that `Valid` holds from the start.
      var built: map<Resource, Table> := map[];
      var todo := AllResources;
      forall r: Resource ensures r in todo {
        match r
        case Patient => case Appointment => case Billing => case Opd => case Ipd => case IpdBill =>
        case Pathology => case PathologyBill => case Radiology => case RadiologyBill => case Blog =>
      }
      while todo != []
        invariant forall r: Resource :: r in built || r in todo
        invariant forall r | r in built :: fresh(built[r])
        invariant forall r1, r2 | r1 in built && r2 in built && r1 != r2 :: built[r1] != built[r2]
        invariant forall r | r in built :: built[r].Valid() && built[r].rows == map[]
                                          && built[r].unique == UniqueColumns(r) && built[r].created == CreatedStatus(r)
      {
        var t := new Table(UniqueColumns(todo[0]), CreatedStatus(todo[0]));
        built := built[todo[0] := t];
        todo := todo[1..];
      }
      tables := built;
    }

    /** The list view's `post` of resource `res`. */
    method Create(res: Resource, ctx: Ctx, data: Payload, valid: bool) returns (st: Status, id: Option<Id>)
      requires Valid()
      modifies tables[res]
      ensures Valid()
      ensures CreateEffect(old(tables[res].rows), tables[res].rows, old(tables[res].nextId), UniqueColumns(res),
                           CreatedStatus(res), ctx, data, valid, st, id)
      ensures forall r | r != res :: tables[r].rows == old(tables[r].rows)
    {
      st, id := tables[res].Create(ctx, data, valid);
    }

    /** The effective management view's `patch` of resource `res`. */
    method Patch(res: Resource, ctx: Ctx, id: Id, data: Payload, valid: bool) returns (st: Status)
      requires Valid()
      modifies tables[res]
      ensures Valid()
      ensures PatchEffect(old(tables[res].rows), tables[res].rows, UniqueColumns(res), ctx, id, data, valid, st)
      ensures forall r | r != res :: tables[r].rows == old(tables[r].rows)
    {
      st := tables[res].Patch(ctx, id, data, valid);
    }

    /** The effective management view's `delete` of resource `res`. */
    method Delete(res: Resource, caller: Caller, id: Id) returns (st: Status)
      requires Valid()
      modifies tables[res]
      ensures Valid()
      ensures DeleteEffect(old(tables[res].rows), tables[res].rows, caller, id, st)
      ensures forall r | r != res :: tables[r].rows == old(tables[r].rows)
    {
      st := tables[res].Delete(caller, id);
    }
  }

  /** Two appointments cannot carry the same non-null `fees`. When the held
      row was stored after the data was validated (`valid` true, the race
      between two requests), the save raises the integrity error: 500 and
      no row added. */
  lemma DuplicateFeesRejected(before: Rows, after: Rows, next: Id, ctx: Ctx, data: Payload, st: Status, id: Option<Id>, held: Id)
    requires held in before && Column(before[held].fields, "fees") != Null
    requires Column(data.fields, "fees") == Column(before[held].fields, "fees")
    requires CreateEffect(before, after, next, UniqueColumns(Appointment), CreatedStatus(Appointment), ctx, data, true, st, id)
    ensures st == ServerError && id == None && after == before
  {
    assert Clash(before, UniqueColumns(Appointment), data.fields, None) by {
      assert "fees" in UniqueColumns(Appointment);
    }
  }

  /** On sequential requests a held non-null `fees` is caught by the
      serializer's unique check: `is_valid()` is the field checks together
      with the absence of a clash, and the create answers 400 with no row
      added. */
  lemma HeldFeesFailsValidation(before: Rows, after: Rows, next: Id, ctx: Ctx, data: Payload, fieldsOk: bool,
                                st: Status, id: Option<Id>, held: Id)
    requires held in before && Column(before[held].fields, "fees") != Null
    requires Column(data.fields, "fees") == Column(before[held].fields, "fees")
    requires CreateEffect(before, after, next, UniqueColumns(Appointment), CreatedStatus(Appointment), ctx, data,
                          fieldsOk && !Clash(before, UniqueColumns(Appointment), data.fields, None), st, id)
    ensures st == BadRequest && id == None && after == before
  {
    assert Clash(before, UniqueColumns(Appointment), data.fields, None) by {
      assert "fees" in UniqueColumns(Appointment);
    }
  }

  /** Only an appointment can hit an integrity error: for every other
      resource a create with valid data always succeeds, answers 201 (200
      for a blog) with the new id, and the row shows in the resource's list
      and in "fetch all". */
  lemma CreateSucceedsOnValidInput(res: Resource, before: Rows, after: Rows, next: Id, ctx: Ctx, data: Payload,
                                   st: Status, id: Option<Id>)
    requires res != Appointment
    requires CreateEffect(before, after, next, UniqueColumns(res), CreatedStatus(res), ctx, data, true, st, id)
    ensures st == CreatedStatus(res) && st.Code() == (if res == Blog then 200 else 201)
    ensures id == Some(next) && next !in before && after[next] == NewRecord(ctx, data)
    ensures next in ListView(res, after, ctx, Absent) && next in FetchAll(after)
  {
    assert !Clash(before, UniqueColumns(res), data.fields, None);
    CreateThenVisible(before, after, next, UniqueColumns(res), CreatedStatus(res), ctx, data, true, st, id);
  }
}
