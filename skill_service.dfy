/** The Skill service as an object: the table of skills and the id counter
    are fields that create, update and delete change in place. Each method
    is proved to give the answer, and leave the state, that the matching
    function of SkillStore prescribes. */
module SkillServiceObject {
  import opened Wrappers
  import opened SkillErrors
  import opened SkillStore

  class SkillService {
    var rows: map<int, Row>
    var nextId: int

    ghost predicate Valid()
      reads this
    {
      SkillStore.Valid(State())
    }

    /** The state as a value. */
    function State(): Store
      reads this
    {
      Store(rows, nextId)
    }

    /** A service over whatever the database already holds. */
    constructor (initial: Store)
      requires SkillStore.Valid(initial)
      ensures Valid() && State() == initial
    {
      rows := initial.rows;
      nextId := initial.nextId;
    }

    /** validateTenantIdParameter: the path tenant must own the checked skill. */
    static method ValidateTenant(pathTenant: int, name: string, entityTenant: int) returns (e: Option<ServiceError>)
      ensures e == CheckTenant(pathTenant, name, entityTenant)
    {
      e := None;
      if pathTenant != entityTenant {
        e := Some(IllegalState(TenantMismatchMessage(pathTenant, name, entityTenant)));
      }
    }

    method CreateSkill(pathTenant: int, view: SkillView) returns (r: Result<Skill>)
      requires Valid()
      modifies this
      ensures Valid()
      ensures Step(r, State()) == Create(old(State()), pathTenant, view)
    {
      var e := ValidateTenant(pathTenant, view.name, view.tenantId);
      if e.Some? {
        return Failure(e.value);
      }
      var id := nextId;
      rows := rows[id := Row(view.tenantId, view.name)];
      nextId := nextId + 1;
      r := Success(Skill(id, view.tenantId, view.name));
    }

    method GetSkill(pathTenant: int, id: int) returns (r: Result<Skill>)
      requires Valid()
      ensures r == Get(State(), pathTenant, id)
    {
      if id !in rows {
        return Failure(EntityNotFound(NoEntityFoundMessage(id)));
      }
      var row := rows[id];
      var e := ValidateTenant(pathTenant, row.name, row.tenantId);
      if e.Some? {
        return Failure(e.value);
      }
      r := Success(Skill(id, row.tenantId, row.name));
    }

    method UpdateSkill(pathTenant: int, view: SkillView) returns (r: Result<Skill>)
      requires Valid()
      modifies this
      ensures Valid()
      ensures Step(r, State()) == Update(old(State()), pathTenant, view)
    {
      var e := ValidateTenant(pathTenant, view.name, view.tenantId);
      if e.Some? {
        return Failure(e.value);
      }
      if view.id.None? || view.id.value !in rows {
        return Failure(EntityNotFound(UpdateNotFoundMessage(view.id)));
      }
      var id := view.id.value;
      var stored := rows[id];
      if stored.tenantId != view.tenantId {
        return Failure(IllegalState(CannotChangeTenantsMessage(stored.tenantId)));
      }
      rows := rows[id := Row(stored.tenantId, view.name)];
      r := Success(Skill(id, stored.tenantId, view.name));
    }

    method DeleteSkill(pathTenant: int, id: int) returns (r: Result<bool>)
      requires Valid()
      modifies this
      ensures Valid()
      ensures Step(r, State()) == Delete(old(State()), pathTenant, id)
    {
      if id !in rows {
        return Success(false);
      }
      var row := rows[id];
      var e := ValidateTenant(pathTenant, row.name, row.tenantId);
      if e.Some? {
        return Failure(e.value);
      }
      rows := rows - {id};
      r := Success(true);
    }
  }
}
