/** The logic of the skills page: the two validators of an edited row,
    the record the row validates and saves (the row's skill with only its
    name replaced), where a save goes, and the skill a new row starts from. */
module SkillsPage {
  import opened Wrappers

  /** The page's skill record; the id is absent until the backend assigns one. */
  datatype Skill = Skill(id: Option<int>, tenantId: int, name: string)

  /** What a save dispatches. */
  datatype SaveAction = AddSkill(skill: Skill) | UpdateSkill(skill: Skill)

  /** The validator nameMustNotBeEmpty. */
  function NameMustNotBeEmpty(skill: Skill): (ok: bool)
    ensures ok <==> skill.name != ""
  {
    |skill.name| > 0
  }

  /** The error message of nameMustNotBeEmpty; it can never be mistaken
      for the message of nameAlreadyTaken, whatever name that one carries. */
  function EmptyNameError(): (msg: string)
    ensures msg != "" && forall skill :: msg != NameTakenError(skill)
  {
    "Skill cannot have an empty name"
  }

  /** The filter inside nameAlreadyTaken: the skills of the list, in order,
      that have the candidate's name but another id. */
  function SameNameOtherId(skillList: seq<Skill>, skill: Skill): (r: seq<Skill>)
    ensures |r| <= |skillList|
    ensures forall o :: o in r <==> o in skillList && o.name == skill.name && o.id != skill.id
  {
    if skillList == [] then []
    else
      var rest := SameNameOtherId(skillList[1..], skill);
      var o := skillList[0];
      if o.name == skill.name && o.id != skill.id then [o] + rest else rest
  }

  /** The validator nameAlreadyTaken; like every validator predicate it
      holds when the skill is acceptable, that is when the name is free. */
  function NameAlreadyTaken(skillList: seq<Skill>, skill: Skill): (ok: bool)
    ensures ok <==> forall o :: o in skillList ==> o.name != skill.name || o.id == skill.id
  {
    var taken := SameNameOtherId(skillList, skill);
    assert taken != [] ==> taken[0] in taken;
    |taken| == 0
  }

  /** The error message of nameAlreadyTaken; the offending name can be read back from it. */
  function NameTakenError(skill: Skill): (msg: string)
    ensures |msg| == |skill.name| + 41 && msg[0] == 'N'
    ensures msg[6..|msg| - 35] == skill.name
  {
    "Name (" + skill.name + ") is already taken by another skill"
  }

  /** The record the row validates and saves: `{...skill, name}`. */
  function WithName(skill: Skill, name: string): (r: Skill)
    ensures r.id == skill.id && r.tenantId == skill.tenantId && r.name == name
  {
    skill.(name := name)
  }

  /** onSave: a new row is added, an existing row updated, both with the merged record. */
  function OnSave(isNew: bool, skill: Skill, name: string): (a: SaveAction)
    ensures a.AddSkill? <==> isNew
    ensures a.skill.id == skill.id && a.skill.tenantId == skill.tenantId && a.skill.name == name
  {
    if isNew then AddSkill(WithName(skill, name)) else UpdateSkill(WithName(skill, name))
  }

  /** The skill of a new row: the current tenant and an empty name. */
  function NewRowSkill(tenantId: int): (r: Skill)
    ensures r.id.None? && r.tenantId == tenantId
    ensures !NameMustNotBeEmpty(r)
  {
    Skill(None, tenantId, "")
  }

  /** No two skills of the list share a name unless they share the id. */
  predicate UniqueNames(skillList: seq<Skill>) {
    forall i, j :: 0 <= i < |skillList| && 0 <= j < |skillList| && skillList[i].name == skillList[j].name
      ==> skillList[i].id == skillList[j].id
  }

  /** Save dispatches exactly the record that was validated. */
  lemma SaveUsesValidatedRecord(isNew: bool, skill: Skill, name: string)
    ensures OnSave(isNew, skill, name).skill == WithName(skill, name)
  {
  }

  /** Merging twice keeps only the last name; merging a skill's own name changes nothing. */
  lemma WithNameLastWins(skill: Skill, a: string, b: string)
    ensures WithName(WithName(skill, a), b) == WithName(skill, b)
    ensures WithName(skill, skill.name) == skill
  {
  }

  /** A row that keeps its own name never fails nameAlreadyTaken: the only
      skills with that name carry its own id, and those are excluded. */
  lemma KeepingOwnNamePasses(skillList: seq<Skill>, skill: Skill)
    requires UniqueNames(skillList) && skill in skillList
    ensures NameAlreadyTaken(skillList, WithName(skill, skill.name))
  {
    var i :| 0 <= i < |skillList| && skillList[i] == skill;
    forall j | 0 <= j < |skillList| && skillList[j].name == skill.name
      ensures skillList[j].id == skill.id
    {
    }
  }

  /** Renaming a row to the name of another skill of the list fails nameAlreadyTaken. */
  lemma TakingAnotherNameFails(skillList: seq<Skill>, skill: Skill, other: Skill)
    requires other in skillList && other.id != skill.id
    ensures !NameAlreadyTaken(skillList, WithName(skill, other.name))
  {
  }

  /** A new row is valid exactly when its name is not empty and no listed
      skill has it (listed skills have ids, the new row has none). */
  lemma NewRowValidation(skillList: seq<Skill>, tenantId: int, name: string)
    requires forall o :: o in skillList ==> o.id.Some?
    ensures NameMustNotBeEmpty(WithName(NewRowSkill(tenantId), name)) <==> name != ""
    ensures NameAlreadyTaken(skillList, WithName(NewRowSkill(tenantId), name))
            <==> forall o :: o in skillList ==> o.name != name
  {
  }

  /** What the validator protects: a skill that passes it can join a list
      of unique names and the names stay unique. */
  lemma {:induction false} PassingKeepsNamesUnique(skillList: seq<Skill>, skill: Skill)
    requires UniqueNames(skillList) && NameAlreadyTaken(skillList, skill)
    ensures UniqueNames(skillList + [skill])
  {
    var l := skillList + [skill];
    forall i, j | 0 <= i < |l| && 0 <= j < |l| && l[i].name == l[j].name
      ensures l[i].id == l[j].id
    {
      if i < |skillList| { assert l[i] in skillList; }
      if j < |skillList| { assert l[j] in skillList; }
    }
  }
}
