/** The REST tests of the Skill service, one method per test. Each runs the
    test's calls against a service over an arbitrary valid database (whatever it
    stores besides the test's own skills is left open) and states,
    as its postcondition, what the test asserts about the last answer:
    the returned tenant and name, or the exception class and message. */
module SkillServiceTests {
  import opened Wrappers
  import opened Decimal
  import opened SkillErrors
  import opened SkillStore
  import opened SkillServiceObject

  /** getSkillTest: a created skill is read back under its tenant. */
  method GetSkillTest(db: Store, tenant: int) returns (r: Result<Skill>)
    requires SkillStore.Valid(db)
    ensures r.Success? && r.value.tenantId == tenant && r.value.name == "skill"
  {
    var service := new SkillService(db);
    var skill := service.CreateSkill(tenant, SkillView(None, tenant, "skill"));
    r := service.GetSkill(tenant, skill.value.id);
  }

  /** getNonExistentSkillTest: id 0 is not found. */
  method GetNonExistentSkillTest(db: Store, tenant: int) returns (r: Result<Skill>)
    requires SkillStore.Valid(db)
    ensures r.Failure? && r.error.ExceptionClass() == "javax.persistence.EntityNotFoundException"
    ensures r.error.message == "No Skill entity found with ID (0)."
  {
    var service := new SkillService(db);
    r := service.GetSkill(tenant, 0);
    assert IntToString(0) == "0";
  }

  /** getNonMatchingSkillTest: a skill of the test tenant read under tenant 0. */
  method GetNonMatchingSkillTest(db: Store, tenant: int) returns (r: Result<Skill>)
    requires SkillStore.Valid(db) && tenant != 0
    ensures r.Failure? && r.error.ExceptionClass() == "java.lang.IllegalStateException"
    ensures r.error.message
            == "The tenantId (0) does not match the persistable (skill)'s tenantId (" + IntToString(tenant) + ")."
  {
    var service := new SkillService(db);
    var skill := service.CreateSkill(tenant, SkillView(None, tenant, "skill"));
    ghost var stored := service.State();
    r := service.GetSkill(0, skill.value.id);
    ForeignGetAndDelete(stored, 0, skill.value.id);
    assert r == Failure(IllegalState(TenantMismatchMessage(0, "skill", tenant)));
    SkillMismatchText(tenant);
  }

  /** deleteSkillTest: the owner deletes a created skill and is answered true. */
  method DeleteSkillTest(db: Store, tenant: int) returns (r: Result<bool>)
    requires SkillStore.Valid(db)
    ensures r == Success(true)
  {
    var service := new SkillService(db);
    var skill := service.CreateSkill(tenant, SkillView(None, tenant, "skill"));
    r := service.DeleteSkill(tenant, skill.value.id);
  }

  /** deleteNonExistentSkillTest: deleting id 0 is answered false, not an error. */
  method DeleteNonExistentSkillTest(db: Store, tenant: int) returns (r: Result<bool>)
    requires SkillStore.Valid(db)
    ensures r == Success(false)
  {
    var service := new SkillService(db);
    r := service.DeleteSkill(tenant, 0);
  }

  /** deleteNonMatchingSkillTest: a skill of the test tenant deleted under tenant 0. */
  method DeleteNonMatchingSkillTest(db: Store, tenant: int) returns (r: Result<bool>)
    requires SkillStore.Valid(db) && tenant != 0
    ensures r.Failure? && r.error.ExceptionClass() == "java.lang.IllegalStateException"
    ensures r.error.message
            == "The tenantId (0) does not match the persistable (skill)'s tenantId (" + IntToString(tenant) + ")."
  {
    var service := new SkillService(db);
    var skill := service.CreateSkill(tenant, SkillView(None, tenant, "skill"));
    ghost var stored := service.State();
    r := service.DeleteSkill(0, skill.value.id);
    ForeignGetAndDelete(stored, 0, skill.value.id);
    assert r == Failure(IllegalState(TenantMismatchMessage(0, "skill", tenant)));
    SkillMismatchText(tenant);
  }

  /** createSkillTest: the created skill echoes the tenant and the name. */
  method CreateSkillTest(db: Store, tenant: int) returns (r: Result<Skill>)
    requires SkillStore.Valid(db)
    ensures r.Success? && r.value.tenantId == tenant && r.value.name == "skill"
  {
    var service := new SkillService(db);
    r := service.CreateSkill(tenant, SkillView(None, tenant, "skill"));
  }

  /** createNonMatchingSkillTest: a view of the test tenant posted under tenant 0. */
  method CreateNonMatchingSkillTest(db: Store, tenant: int) returns (r: Result<Skill>)
    requires SkillStore.Valid(db) && tenant != 0
    ensures r.Failure? && r.error.ExceptionClass() == "java.lang.IllegalStateException"
    ensures r.error.message
            == "The tenantId (0) does not match the persistable (skill)'s tenantId (" + IntToString(tenant) + ")."
  {
    var service := new SkillService(db);
    r := service.CreateSkill(0, SkillView(None, tenant, "skill"));
    assert r == Failure(IllegalState(TenantMismatchMessage(0, "skill", tenant)));
    SkillMismatchText(tenant);
  }

  /** updateSkillTest: renaming a created skill keeps its tenant. */
  method UpdateSkillTest(db: Store, tenant: int) returns (r: Result<Skill>)
    requires SkillStore.Valid(db)
    ensures r.Success? && r.value.tenantId == tenant && r.value.name == "updatedSkill"
  {
    var service := new SkillService(db);
    var skill := service.CreateSkill(tenant, SkillView(None, tenant, "skill"));
    r := service.UpdateSkill(tenant, SkillView(Some(skill.value.id), tenant, "updatedSkill"));
  }

  /** updateNonMatchingSkillTest: a view of the test tenant, without an id,
      posted under tenant 0 fails on the tenant before any lookup. */
  method UpdateNonMatchingSkillTest(db: Store, tenant: int) returns (r: Result<Skill>)
    requires SkillStore.Valid(db) && tenant != 0
    ensures r.Failure? && r.error.ExceptionClass() == "java.lang.IllegalStateException"
    ensures r.error.message
            == "The tenantId (0) does not match the persistable (updatedSkill)'s tenantId (" + IntToString(tenant) + ")."
  {
    var service := new SkillService(db);
    var _ := service.CreateSkill(tenant, SkillView(None, tenant, "skill"));
    ghost var before := service.State();
    r := service.UpdateSkill(0, SkillView(None, tenant, "updatedSkill"));
    UpdateMismatchPrecedesLookup(before, db, 0, SkillView(None, tenant, "updatedSkill"));
    assert r == Failure(IllegalState(TenantMismatchMessage(0, "updatedSkill", tenant)));
    UpdatedSkillMismatchText(tenant);
  }

  /** updateNonExistentSkillTest: a view with id 0 under its own tenant is not found. */
  method UpdateNonExistentSkillTest(db: Store, tenant: int) returns (r: Result<Skill>)
    requires SkillStore.Valid(db)
    ensures r.Failure? && r.error.ExceptionClass() == "javax.persistence.EntityNotFoundException"
    ensures r.error.message == "Skill entity with ID (0) not found."
  {
    var service := new SkillService(db);
    r := service.UpdateSkill(tenant, SkillView(Some(0), tenant, "skill"));
    assert IntToString(0) == "0";
  }

  /** updateChangeTenantIdSkillTest: a skill of the test tenant updated by
      tenant 0 with a view of tenant 0 cannot change tenants. */
  method UpdateChangeTenantIdSkillTest(db: Store, tenant: int) returns (r: Result<Skill>)
    requires SkillStore.Valid(db) && tenant != 0
    ensures r.Failure? && r.error.ExceptionClass() == "java.lang.IllegalStateException"
    ensures r.error.message == "Skill entity with tenantId (" + IntToString(tenant) + ") cannot change tenants."
  {
    var service := new SkillService(db);
    var skill := service.CreateSkill(tenant, SkillView(None, tenant, "skill"));
    r := service.UpdateSkill(0, SkillView(Some(skill.value.id), 0, "updatedSkill"));
  }

  /** The mismatch message of the tests that check the stored skill or a view named "skill". */
  lemma SkillMismatchText(tenant: int)
    ensures TenantMismatchMessage(0, "skill", tenant)
            == "The tenantId (0) does not match the persistable (skill)'s tenantId (" + IntToString(tenant) + ")."
  {
    TenantMismatchMessageAtZero("skill", tenant);
    SkillMismatchHead();
  }

  lemma SkillMismatchHead()
    ensures "The tenantId (0) does not match the persistable (" + "skill" + ")'s tenantId ("
            == "The tenantId (0) does not match the persistable (skill)'s tenantId ("
  {
  }

  /** The mismatch message of the test that updates with a view named "updatedSkill". */
  lemma UpdatedSkillMismatchText(tenant: int)
    ensures TenantMismatchMessage(0, "updatedSkill", tenant)
            == "The tenantId (0) does not match the persistable (updatedSkill)'s tenantId (" + IntToString(tenant) + ")."
  {
    TenantMismatchMessageAtZero("updatedSkill", tenant);
    UpdatedSkillMismatchHead();
  }

  lemma UpdatedSkillMismatchHead()
    ensures "The tenantId (0) does not match the persistable (" + "updatedSkill" + ")'s tenantId ("
            == "The tenantId (0) does not match the persistable (updatedSkill)'s tenantId ("
  {
  }
}
