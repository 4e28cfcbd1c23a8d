/** The tenant-scoped Skill service as the REST tests pin it down, stated
    on values: a table from id to (tenant, name) and the next id to hand
    out. Each operation gives the service's answer, a skill or an error,
    and the table afterwards. The order of the checks is the tests':
    create and update compare the view's tenant with the path tenant
    before anything else; get, delete and update look the id up before
    they compare the stored tenant. */
module SkillStore {
  import opened Wrappers
  import opened SkillErrors

  /** What the table stores for one id. */
  datatype Row = Row(tenantId: int, name: string)

  /** A persisted skill as the service returns it. */
  datatype Skill = Skill(id: int, tenantId: int, name: string)

  /** The request body of create and update; the id is absent on a new skill. */
  datatype SkillView = SkillView(id: Option<int>, tenantId: int, name: string)

  datatype Result<T> = Success(value: T) | Failure(error: ServiceError)

  datatype Store = Store(rows: map<int, Row>, nextId: int)

  /** The answer of an operation and the store it leaves behind. */
  datatype Step<T> = Step(result: Result<T>, store: Store)

  /** Ids are handed out from 1 upwards and every stored id was handed out already. */
  predicate Valid(s: Store) {
    1 <= s.nextId && forall id :: id in s.rows ==> 1 <= id < s.nextId
  }

  /** The tenant check shared by every operation: passes exactly when the
      path tenant owns the checked skill, else names the skill's name and tenant. */
  function CheckTenant(pathTenant: int, name: string, entityTenant: int): (r: Option<ServiceError>)
    ensures r.None? <==> pathTenant == entityTenant
    ensures r.Some? ==> r.value.IllegalState?
    ensures r.Some? ==> TenantMismatchMessage(pathTenant, name, entityTenant) == r.value.message
  {
    if pathTenant == entityTenant then None
    else Some(IllegalState(TenantMismatchMessage(pathTenant, name, entityTenant)))
  }

  /** Create: the view's tenant must be the path tenant; the skill gets the next id. */
  function Create(s: Store, pathTenant: int, view: SkillView): (r: Step<Skill>)
    requires Valid(s)
    ensures Valid(r.store)
    ensures r.result.Success? <==> view.tenantId == pathTenant
    ensures r.result.Success? ==>
              && r.result.value.id !in s.rows
              && r.result.value.tenantId == pathTenant
              && r.result.value.name == view.name
              && r.result.value.id == s.nextId
              && r.store == Store(s.rows[r.result.value.id := Row(pathTenant, view.name)], s.nextId + 1)
    ensures r.result.Failure? ==>
              r.store == s && r.result.error == IllegalState(TenantMismatchMessage(pathTenant, view.name, view.tenantId))
  {
    match CheckTenant(pathTenant, view.name, view.tenantId)
    case Some(e) => Step(Failure(e), s)
    case None =>
      var id := s.nextId;
      Step(Success(Skill(id, view.tenantId, view.name)), Store(s.rows[id := Row(view.tenantId, view.name)], id + 1))
  }

  /** Get: the id must be stored, and stored under the path tenant. */
  function Get(s: Store, pathTenant: int, id: int): (r: Result<Skill>)
    ensures r.Success? <==> id in s.rows && s.rows[id].tenantId == pathTenant
    ensures r.Success? ==> r.value == Skill(id, pathTenant, s.rows[id].name)
    ensures r.Failure? && r.error.EntityNotFound? <==> id !in s.rows
    ensures id !in s.rows ==> r == Failure(EntityNotFound(NoEntityFoundMessage(id)))
    ensures id in s.rows && s.rows[id].tenantId != pathTenant ==>
              r == Failure(IllegalState(TenantMismatchMessage(pathTenant, s.rows[id].name, s.rows[id].tenantId)))
  {
    if id !in s.rows then Failure(EntityNotFound(NoEntityFoundMessage(id)))
    else
      var row := s.rows[id];
      match CheckTenant(pathTenant, row.name, row.tenantId)
      case Some(e) => Failure(e)
      case None => Success(Skill(id, row.tenantId, row.name))
  }

  /** Update: the view's tenant must be the path tenant, the view's id must be
      stored, and the stored skill must belong to the view's tenant; only the
      name changes. */
  function Update(s: Store, pathTenant: int, view: SkillView): (r: Step<Skill>)
    ensures r.result.Failure? ==> r.store == s
    ensures r.result.Success? <==>
              && view.tenantId == pathTenant
              && view.id.Some? && view.id.value in s.rows
              && s.rows[view.id.value].tenantId == pathTenant
    ensures r.result.Success? ==>
              && r.result.value == Skill(view.id.value, pathTenant, view.name)
              && r.store == Store(s.rows[view.id.value := Row(pathTenant, view.name)], s.nextId)
  {
    match CheckTenant(pathTenant, view.name, view.tenantId)
    case Some(e) => Step(Failure(e), s)
    case None =>
      if view.id.None? || view.id.value !in s.rows then
        Step(Failure(EntityNotFound(UpdateNotFoundMessage(view.id))), s)
      else
        var id := view.id.value;
        var stored := s.rows[id];
        if stored.tenantId != view.tenantId then
          Step(Failure(IllegalState(CannotChangeTenantsMessage(stored.tenantId))), s)
        else
          Step(Success(Skill(id, stored.tenantId, view.name)), Store(s.rows[id := Row(stored.tenantId, view.name)], s.nextId))
  }

  /** Delete: an absent id is a success that answers false; a stored id
      must belong to the path tenant and is then removed. */
  function Delete(s: Store, pathTenant: int, id: int): (r: Step<bool>)
    ensures r.result.Success? <==> id !in s.rows || s.rows[id].tenantId == pathTenant
    ensures r.result.Success? ==> r.result.value == (id in s.rows)
    ensures r.store == if r.result == Success(true) then Store(s.rows - {id}, s.nextId) else s
  {
    if id !in s.rows then Step(Success(false), s)
    else
      var row := s.rows[id];
      match CheckTenant(pathTenant, row.name, row.tenantId)
      case Some(e) => Step(Failure(e), s)
      case None => Step(Success(true), Store(s.rows - {id}, s.nextId))
  }

  // ---------------------------------------------------------------------
  // Properties of the operations, one per test of the suite and one per
  // promise of the tenant model.
  // ---------------------------------------------------------------------

  /** Create under the view's own tenant, then get under that tenant,
      gives back the tenant and the name; under any other tenant the get
      fails naming the stored skill and its owner. */
  lemma CreateThenGet(s: Store, tenant: int, other: int, view: SkillView)
    requires Valid(s) && view.tenantId == tenant && other != tenant
    ensures var c := Create(s, tenant, view);
            && c.result.Success?
            && Get(c.store, tenant, c.result.value.id) == Success(Skill(c.result.value.id, tenant, view.name))
            && Get(c.store, other, c.result.value.id)
               == Failure(IllegalState(TenantMismatchMessage(other, view.name, tenant)))
  {
  }

  /** A create whose view names another tenant fails with the mismatch
      message naming the view, and changes nothing. */
  lemma CreateMismatch(s: Store, pathTenant: int, view: SkillView)
    requires Valid(s) && view.tenantId != pathTenant
    ensures Create(s, pathTenant, view)
            == Step(Failure(IllegalState(TenantMismatchMessage(pathTenant, view.name, view.tenantId))), s)
  {
  }

  /** Id 0 is never handed out, so a get of it fails with the test's message. */
  lemma GetIdZero(s: Store, tenant: int)
    requires Valid(s)
    ensures Get(s, tenant, 0) == Failure(EntityNotFound("No Skill entity found with ID (0)."))
  {
    assert Decimal.IntToString(0) == "0";
  }

  /** Deleting twice: the first delete by the owner answers true, the second false. */
  lemma DeleteTwice(s: Store, tenant: int, id: int)
    requires id in s.rows && s.rows[id].tenantId == tenant
    ensures var d1 := Delete(s, tenant, id);
            var d2 := Delete(d1.store, tenant, id);
            d1.result == Success(true) && d2.result == Success(false) && d2.store == d1.store
  {
  }

  /** Delete of an absent id answers false under every tenant and changes nothing. */
  lemma DeleteAbsent(s: Store, tenant: int, id: int)
    requires id !in s.rows
    ensures Delete(s, tenant, id) == Step(Success(false), s)
  {
  }

  /** Get and delete of a skill owned by another tenant fail alike, naming
      the stored skill's name and owner after the path tenant. */
  lemma ForeignGetAndDelete(s: Store, pathTenant: int, id: int)
    requires id in s.rows && s.rows[id].tenantId != pathTenant
    ensures var e := IllegalState(TenantMismatchMessage(pathTenant, s.rows[id].name, s.rows[id].tenantId));
            && Get(s, pathTenant, id) == Failure(e)
            && Delete(s, pathTenant, id) == Step(Failure(e), s)
  {
  }

  /** The view's tenant is checked before the lookup: with a mismatching
      view the answer is the same whatever the store holds, and it names
      the view. */
  lemma UpdateMismatchPrecedesLookup(s1: Store, s2: Store, pathTenant: int, view: SkillView)
    requires view.tenantId != pathTenant
    ensures Update(s1, pathTenant, view).result == Update(s2, pathTenant, view).result
    ensures Update(s1, pathTenant, view).result
            == Failure(IllegalState(TenantMismatchMessage(pathTenant, view.name, view.tenantId)))
  {
  }

  /** With a matching view, a missing id is reported as not found. */
  lemma UpdateMissing(s: Store, pathTenant: int, view: SkillView)
    requires view.tenantId == pathTenant
    requires view.id.None? || view.id.value !in s.rows
    ensures Update(s, pathTenant, view) == Step(Failure(EntityNotFound(UpdateNotFoundMessage(view.id))), s)
  {
  }

  /** With a matching view, a skill stored under another tenant cannot be
      moved: the error names the stored tenant and the store is unchanged. */
  lemma UpdateCannotChangeTenants(s: Store, pathTenant: int, view: SkillView)
    requires view.tenantId == pathTenant
    requires view.id.Some? && view.id.value in s.rows && s.rows[view.id.value].tenantId != pathTenant
    ensures Update(s, pathTenant, view)
            == Step(Failure(IllegalState(CannotChangeTenantsMessage(s.rows[view.id.value].tenantId))), s)
  {
  }

  /** A successful update is seen by a later get: same id and tenant, the new name. */
  lemma UpdateThenGet(s: Store, tenant: int, id: int, name: string)
    requires id in s.rows && s.rows[id].tenantId == tenant
    ensures var u := Update(s, tenant, SkillView(Some(id), tenant, name));
            && u.result == Success(Skill(id, tenant, name))
            && Get(u.store, tenant, id) == Success(Skill(id, tenant, name))
  {
  }

  /** Every operation under a path tenant leaves the skills of every other
      tenant exactly as they were. */
  predicate OthersUnchanged(before: Store, after: Store, tenant: int) {
    forall id :: id in before.rows && before.rows[id].tenantId != tenant ==>
      id in after.rows && after.rows[id] == before.rows[id]
  }

  /** No operation moves a stored skill to another tenant. */
  predicate TenantsKept(before: Store, after: Store) {
    forall id :: id in before.rows && id in after.rows ==> after.rows[id].tenantId == before.rows[id].tenantId
  }

  lemma TenantIsolation(s: Store, tenant: int, view: SkillView, id: int)
    requires Valid(s)
    ensures OthersUnchanged(s, Create(s, tenant, view).store, tenant)
    ensures OthersUnchanged(s, Update(s, tenant, view).store, tenant)
    ensures OthersUnchanged(s, Delete(s, tenant, id).store, tenant)
    ensures TenantsKept(s, Create(s, tenant, view).store)
    ensures TenantsKept(s, Update(s, tenant, view).store)
    ensures TenantsKept(s, Delete(s, tenant, id).store)
  {
  }

  /** Update and delete keep the store valid (create states it itself). */
  lemma ValidKept(s: Store, tenant: int, view: SkillView, id: int)
    requires Valid(s)
    ensures Valid(Update(s, tenant, view).store)
    ensures Valid(Delete(s, tenant, id).store)
  {
  }
}
