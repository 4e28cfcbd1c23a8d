# Skill service and skills page of optaweb-employee-rostering, in Dafny

The employee-rostering backend keeps every domain entity in a tenant-scoped
store. A skill belongs to exactly one tenant. It is created, read, updated
and deleted through REST calls that carry a tenant in the path, and every
call checks that tenant against the skill before it answers. The backend's
REST tests for the Skill service fix the order of the checks, the exception
class of each failure and the exact message text; the points they leave
open are listed below.
The frontend's skills page validates an edited row before saving it: the
name must not be empty and must not belong to another skill. It saves the
row's skill with only the name replaced.

This project models:

- `decimal.dfy` (`Decimal`): Java's decimal rendering of the integers that the
  messages embed, with a digit parser as its partner: the digits of a
  natural number parse back to it, and canonical digit strings render back.
- `skill_errors.dfy` (`SkillErrors`): the two exception classes and the four
  message templates. Lemmas prove that every message determines the values
  written into it and that no two templates produce the same text.
- `skill_store.dfy` (`SkillStore`): the service on values. The state is a
  table from id to (tenant, name) plus the next id to hand out. `Create`,
  `Update` and `Delete` each return a skill, a boolean or an error,
  together with the new table; `Get` returns a skill or an error. One lemma per test and per tenant-model
  promise.
- `skill_service.dfy` (`SkillServiceObject`): the same service as a class.
  The table and the counter are fields, and the methods change them in
  place. Each method is proved to match the `SkillStore` function.
- `skill_service_tests.dfy` (`SkillServiceTests`): one method per REST test.
  Each runs the test's calls on a service over an arbitrary valid database.
  Its postcondition is what the test asserts.
- `skills_page.dfy` (`SkillsPage`): the validators `nameMustNotBeEmpty` and
  `nameAlreadyTaken`, the duplicate-name message, the `{...skill, name}` merge,
  the save dispatch, and the skill a new row starts from.

Order of checks, as the tests fix it:

- Create and update compare the view's tenant with the path tenant first.
- Get, delete and update then look the id up.
- Finally they compare the stored skill's tenant.
- A mismatch message names the path tenant, then the name and tenant of the
  skill being checked. That is the view for create and update, and the
  stored skill for get and delete.

Update compares the view's tenant before it looks the id up. The test at
`SkillServiceTest.java:191-210` posts a view without an id under another
tenant and expects the tenant-mismatch message.

Decisions where the tests leave the service open:

- Ids come from a counter that starts at 1. Id 0 is therefore never stored,
  which the tests at lines 73-84, 115-122 and 212-228 rely on.
- Create does not read the view's id. No test sends one.
- An update whose view has no id, and whose tenant matches, fails as not
  found. Its message renders the id the way Java concatenates a null
  `Long`: "Skill entity with ID (null) not found.".

## Model

| member | source | states |
|---|---|---|
| `Decimal.IntToString` | optaweb-employee-rostering-backend/src/test/java/org/optaweb/employeerostering/skill/SkillServiceTest.java:88-89 | the text of an integer in a message is non-empty, starts with '-' exactly for negatives, and is otherwise all digits |
| `Decimal.NatToString` | optaweb-employee-rostering-backend/src/test/java/org/optaweb/employeerostering/skill/SkillServiceTest.java:75 | the digits of a natural number: at least one, all decimal digits, no leading zero |
| `Decimal.ParseNatToString` | optaweb-employee-rostering-backend/src/test/java/org/optaweb/employeerostering/skill/SkillServiceTest.java:88-89 | reading back the digits of a natural number gives that number |
| `Decimal.ParseNatCanonical` | optaweb-employee-rostering-backend/src/test/java/org/optaweb/employeerostering/skill/SkillServiceTest.java:88-89 | every string of digits without a leading zero is the rendering of its value, so the rendering is onto the canonical digit strings |
| `Decimal.ParseIntToString` | optaweb-employee-rostering-backend/src/test/java/org/optaweb/employeerostering/skill/SkillServiceTest.java:88-89 | the digits of an integer's text (after the minus sign for negatives) parse back to its magnitude, so the text states the value |
| `Decimal.NatToStringInjective` | optaweb-employee-rostering-backend/src/test/java/org/optaweb/employeerostering/skill/SkillServiceTest.java:88-89 | two different natural numbers never render as the same digits |
| `Decimal.IntToStringInjective` | optaweb-employee-rostering-backend/src/test/java/org/optaweb/employeerostering/skill/SkillServiceTest.java:88-89 | two different integers never render as the same text |
| `SkillErrors.ServiceError.ExceptionClass` | optaweb-employee-rostering-backend/src/test/java/org/optaweb/employeerostering/skill/SkillServiceTest.java:75-90 | not-found errors report javax.persistence.EntityNotFoundException and tenant errors java.lang.IllegalStateException, and only those |
| `SkillErrors.TenantMismatchMessage` | optaweb-employee-rostering-backend/src/test/java/org/optaweb/employeerostering/skill/SkillServiceTest.java:88-89 | the tenant-mismatch text: the path tenant, the checked skill's name and its tenant can each be read back from fixed places of the message |
| `SkillErrors.NoEntityFoundMessage` | optaweb-employee-rostering-backend/src/test/java/org/optaweb/employeerostering/skill/SkillServiceTest.java:75 | the get-not-found text: the id can be read back from between "No Skill entity found with ID (" and ")." |
| `SkillErrors.UpdateNotFoundMessage` | optaweb-employee-rostering-backend/src/test/java/org/optaweb/employeerostering/skill/SkillServiceTest.java:214 | the update-not-found text: the id, or "null" for an absent one, can be read back from between "Skill entity with ID (" and ") not found." |
| `SkillErrors.CannotChangeTenantsMessage` | optaweb-employee-rostering-backend/src/test/java/org/optaweb/employeerostering/skill/SkillServiceTest.java:232 | the cannot-change-tenants text: the stored tenant can be read back from between "Skill entity with tenantId (" and ") cannot change tenants." |
| `SkillErrors.TenantMismatchMessageInjective` | optaweb-employee-rostering-backend/src/test/java/org/optaweb/employeerostering/skill/SkillServiceTest.java:88-89 | the mismatch message determines the path tenant, the skill's name and the skill's tenant |
| `SkillErrors.TenantMismatchMessageAtZero` | optaweb-employee-rostering-backend/src/test/java/org/optaweb/employeerostering/skill/SkillServiceTest.java:157-158 | with path tenant 0 the mismatch message is the text the tests write out |
| `SkillErrors.NoEntityFoundMessageInjective` | optaweb-employee-rostering-backend/src/test/java/org/optaweb/employeerostering/skill/SkillServiceTest.java:75 | the get-not-found message determines the id |
| `SkillErrors.UpdateNotFoundMessageInjective` | optaweb-employee-rostering-backend/src/test/java/org/optaweb/employeerostering/skill/SkillServiceTest.java:214 | the update-not-found message determines the id, and tells an absent id from every present one |
| `SkillErrors.CannotChangeTenantsMessageInjective` | optaweb-employee-rostering-backend/src/test/java/org/optaweb/employeerostering/skill/SkillServiceTest.java:232 | the cannot-change-tenants message determines the stored tenant |
| `SkillErrors.TemplatesDistinct` | optaweb-employee-rostering-backend/src/test/java/org/optaweb/employeerostering/skill/SkillServiceTest.java:75-232 | no two of the four message templates can produce the same text, so each failure is identifiable by its message |
| `SkillStore.CheckTenant` | optaweb-employee-rostering-backend/src/test/java/org/optaweb/employeerostering/skill/SkillServiceTest.java:86-101 | the tenant check passes exactly when the path tenant owns the checked skill; otherwise it is an IllegalState error with the mismatch message |
| `SkillStore.Create` | optaweb-employee-rostering-backend/src/test/java/org/optaweb/employeerostering/skill/SkillServiceTest.java:141-171 | create succeeds exactly when the view's tenant is the path tenant; it then stores the view's tenant and name under the next id of the counter, which is not in the table, and advances the counter; otherwise it fails with the mismatch message naming the view and changes nothing |
| `SkillStore.Get` | optaweb-employee-rostering-backend/src/test/java/org/optaweb/employeerostering/skill/SkillServiceTest.java:60-101 | get succeeds exactly when the id is stored under the path tenant and returns that skill; it fails as not found exactly when the id is absent, with "No Skill entity found with ID (id).", and otherwise with the mismatch message naming the stored skill |
| `SkillStore.Update` | optaweb-employee-rostering-backend/src/test/java/org/optaweb/employeerostering/skill/SkillServiceTest.java:173-249 | update succeeds exactly when the view's tenant, the path tenant and the stored tenant agree on a stored id; only the name changes, and a failure changes nothing |
| `SkillStore.Delete` | optaweb-employee-rostering-backend/src/test/java/org/optaweb/employeerostering/skill/SkillServiceTest.java:103-139 | delete succeeds exactly when the id is absent or owned by the path tenant; it answers whether the id was stored and removes only that row |
| `SkillStore.CreateThenGet` | optaweb-employee-rostering-backend/src/test/java/org/optaweb/employeerostering/skill/SkillServiceTest.java:60-101 | a created skill is read back with its tenant and name under its tenant, and under any other tenant the read fails naming the stored skill |
| `SkillStore.CreateMismatch` | optaweb-employee-rostering-backend/src/test/java/org/optaweb/employeerostering/skill/SkillServiceTest.java:155-171 | a create whose view names another tenant fails with the mismatch message naming the view, and changes nothing |
| `SkillStore.GetIdZero` | optaweb-employee-rostering-backend/src/test/java/org/optaweb/employeerostering/skill/SkillServiceTest.java:73-84 | in every valid store, getting id 0 fails with "No Skill entity found with ID (0)." |
| `SkillStore.DeleteTwice` | optaweb-employee-rostering-backend/src/test/java/org/optaweb/employeerostering/skill/SkillServiceTest.java:103-122 | the owner's first delete answers true and a second one answers false without changing anything |
| `SkillStore.DeleteAbsent` | optaweb-employee-rostering-backend/src/test/java/org/optaweb/employeerostering/skill/SkillServiceTest.java:115-122 | deleting an absent id answers false under any tenant, is not an error, and changes nothing |
| `SkillStore.ForeignGetAndDelete` | optaweb-employee-rostering-backend/src/test/java/org/optaweb/employeerostering/skill/SkillServiceTest.java:86-139 | get and delete of another tenant's skill fail with the same IllegalState message, naming the stored skill's name and tenant, and delete leaves it stored |
| `SkillStore.UpdateMismatchPrecedesLookup` | optaweb-employee-rostering-backend/src/test/java/org/optaweb/employeerostering/skill/SkillServiceTest.java:191-210 | with a view of another tenant, update fails with the mismatch message naming the view, whatever the store holds (so before any lookup) |
| `SkillStore.UpdateMissing` | optaweb-employee-rostering-backend/src/test/java/org/optaweb/employeerostering/skill/SkillServiceTest.java:212-228 | with a matching view, an absent id fails as not found with "Skill entity with ID (id) not found." and changes nothing |
| `SkillStore.UpdateCannotChangeTenants` | optaweb-employee-rostering-backend/src/test/java/org/optaweb/employeerostering/skill/SkillServiceTest.java:230-249 | with a matching view, a skill stored under another tenant is not moved: the error names the stored tenant and the store is unchanged |
| `SkillStore.UpdateThenGet` | optaweb-employee-rostering-backend/src/test/java/org/optaweb/employeerostering/skill/SkillServiceTest.java:173-189 | a successful update returns the same id and tenant with the new name, and a later get sees it |
| `SkillStore.TenantIsolation` | optaweb-employee-rostering-backend/src/test/java/org/optaweb/employeerostering/skill/SkillServiceTest.java:230-249 | no operation under one tenant changes another tenant's skills, and no operation moves a stored skill to another tenant |
| `SkillStore.ValidKept` | optaweb-employee-rostering-backend/src/test/java/org/optaweb/employeerostering/skill/SkillServiceTest.java:73-84 | update and delete keep every stored id below the counter and above 0 |
| `SkillServiceObject.SkillService.constructor` | optaweb-employee-rostering-backend/src/test/java/org/optaweb/employeerostering/skill/SkillServiceTest.java:39-45 | the service starts over a valid database as given |
| `SkillServiceObject.SkillService.ValidateTenant` | optaweb-employee-rostering-backend/src/test/java/org/optaweb/employeerostering/skill/SkillServiceTest.java:86-101 | the tenant check computes exactly the error of SkillStore.CheckTenant |
| `SkillServiceObject.SkillService.CreateSkill` | optaweb-employee-rostering-backend/src/test/java/org/optaweb/employeerostering/skill/SkillServiceTest.java:141-171 | the answer and the new table and counter are those of SkillStore.Create on the old state, and the store stays valid |
| `SkillServiceObject.SkillService.GetSkill` | optaweb-employee-rostering-backend/src/test/java/org/optaweb/employeerostering/skill/SkillServiceTest.java:60-101 | the answer is that of SkillStore.Get on the current state |
| `SkillServiceObject.SkillService.UpdateSkill` | optaweb-employee-rostering-backend/src/test/java/org/optaweb/employeerostering/skill/SkillServiceTest.java:173-249 | the answer and the new state are those of SkillStore.Update on the old state |
| `SkillServiceObject.SkillService.DeleteSkill` | optaweb-employee-rostering-backend/src/test/java/org/optaweb/employeerostering/skill/SkillServiceTest.java:103-139 | the answer and the new state are those of SkillStore.Delete on the old state |
| `SkillServiceTests.GetSkillTest` | optaweb-employee-rostering-backend/src/test/java/org/optaweb/employeerostering/skill/SkillServiceTest.java:60-71 | reading a created skill succeeds with the test tenant and the name "skill" |
| `SkillServiceTests.GetNonExistentSkillTest` | optaweb-employee-rostering-backend/src/test/java/org/optaweb/employeerostering/skill/SkillServiceTest.java:73-84 | reading id 0 fails with EntityNotFoundException and "No Skill entity found with ID (0)." |
| `SkillServiceTests.GetNonMatchingSkillTest` | optaweb-employee-rostering-backend/src/test/java/org/optaweb/employeerostering/skill/SkillServiceTest.java:86-101 | reading the test tenant's skill under tenant 0 fails with IllegalStateException and the mismatch message naming "skill" and the test tenant |
| `SkillServiceTests.DeleteSkillTest` | optaweb-employee-rostering-backend/src/test/java/org/optaweb/employeerostering/skill/SkillServiceTest.java:103-113 | deleting a created skill as its owner answers true |
| `SkillServiceTests.DeleteNonExistentSkillTest` | optaweb-employee-rostering-backend/src/test/java/org/optaweb/employeerostering/skill/SkillServiceTest.java:115-122 | deleting id 0 answers false and is not an error |
| `SkillServiceTests.DeleteNonMatchingSkillTest` | optaweb-employee-rostering-backend/src/test/java/org/optaweb/employeerostering/skill/SkillServiceTest.java:124-139 | deleting the test tenant's skill under tenant 0 fails with IllegalStateException and the mismatch message |
| `SkillServiceTests.CreateSkillTest` | optaweb-employee-rostering-backend/src/test/java/org/optaweb/employeerostering/skill/SkillServiceTest.java:141-153 | creating a skill echoes the test tenant and the name "skill" |
| `SkillServiceTests.CreateNonMatchingSkillTest` | optaweb-employee-rostering-backend/src/test/java/org/optaweb/employeerostering/skill/SkillServiceTest.java:155-171 | posting a view of the test tenant under tenant 0 fails with IllegalStateException and the mismatch message naming the view |
| `SkillServiceTests.UpdateSkillTest` | optaweb-employee-rostering-backend/src/test/java/org/optaweb/employeerostering/skill/SkillServiceTest.java:173-189 | renaming a created skill answers the test tenant and "updatedSkill" |
| `SkillServiceTests.UpdateNonMatchingSkillTest` | optaweb-employee-rostering-backend/src/test/java/org/optaweb/employeerostering/skill/SkillServiceTest.java:191-210 | an id-less view of the test tenant posted under tenant 0 fails with IllegalStateException and the mismatch message naming "updatedSkill" |
| `SkillServiceTests.UpdateNonExistentSkillTest` | optaweb-employee-rostering-backend/src/test/java/org/optaweb/employeerostering/skill/SkillServiceTest.java:212-228 | updating id 0 under its own tenant fails with EntityNotFoundException and "Skill entity with ID (0) not found." |
| `SkillServiceTests.UpdateChangeTenantIdSkillTest` | optaweb-employee-rostering-backend/src/test/java/org/optaweb/employeerostering/skill/SkillServiceTest.java:230-249 | updating the test tenant's skill under tenant 0 with a view of tenant 0 fails with IllegalStateException and "Skill entity with tenantId (T) cannot change tenants." |
| `SkillsPage.NameMustNotBeEmpty` | optaweb-employee-rostering-frontend/src/ui/pages/skill/SkillsPage.tsx:63-66 | the validator holds exactly when the name is not empty |
| `SkillsPage.EmptyNameError` | optaweb-employee-rostering-frontend/src/ui/pages/skill/SkillsPage.tsx:65 | the empty-name message is not empty and differs from every duplicate-name message |
| `SkillsPage.SameNameOtherId` | optaweb-employee-rostering-frontend/src/ui/pages/skill/SkillsPage.tsx:68-69 | the filter keeps exactly the listed skills with the candidate's name and another id, and is no longer than the list |
| `SkillsPage.NameAlreadyTaken` | optaweb-employee-rostering-frontend/src/ui/pages/skill/SkillsPage.tsx:67-71 | the validator holds exactly when no listed skill has the same name and a different id |
| `SkillsPage.NameTakenError` | optaweb-employee-rostering-frontend/src/ui/pages/skill/SkillsPage.tsx:70 | the duplicate-name message embeds the offending name, which can be read back from it |
| `SkillsPage.WithName` | optaweb-employee-rostering-frontend/src/ui/pages/skill/SkillsPage.tsx:74-77 | the validated record keeps the row's id and tenantId and carries the edited name |
| `SkillsPage.OnSave` | optaweb-employee-rostering-frontend/src/ui/pages/skill/SkillsPage.tsx:87-99 | a new row is added and an existing row updated, each with the row's id and tenantId and the edited name |
| `SkillsPage.NewRowSkill` | optaweb-employee-rostering-frontend/src/ui/pages/skill/SkillsPage.tsx:142-145 | a new row has no id, the current tenant, and fails nameMustNotBeEmpty |
| `SkillsPage.SaveUsesValidatedRecord` | optaweb-employee-rostering-frontend/src/ui/pages/skill/SkillsPage.tsx:74-98 | what a save dispatches is exactly the record that was validated |
| `SkillsPage.WithNameLastWins` | optaweb-employee-rostering-frontend/src/ui/pages/skill/SkillsPage.tsx:87-98 | merging replaces only the name: the last name wins, and merging a skill's own name changes nothing |
| `SkillsPage.KeepingOwnNamePasses` | optaweb-employee-rostering-frontend/src/ui/pages/skill/SkillsPage.tsx:68-69 | in a list of unique names, a row that keeps its own name passes nameAlreadyTaken because its own entry is excluded |
| `SkillsPage.TakingAnotherNameFails` | optaweb-employee-rostering-frontend/src/ui/pages/skill/SkillsPage.tsx:67-71 | renaming a row to the name of another listed skill fails nameAlreadyTaken |
| `SkillsPage.NewRowValidation` | optaweb-employee-rostering-frontend/src/ui/pages/skill/SkillsPage.tsx:142-145 | a new row passes nameMustNotBeEmpty exactly when a name was entered, and nameAlreadyTaken exactly when no listed skill has that name |
| `SkillsPage.PassingKeepsNamesUnique` | optaweb-employee-rostering-frontend/src/ui/pages/skill/SkillsPage.tsx:67-71 | a skill that passes nameAlreadyTaken can join a list of unique names and the names stay unique |

## Left out

- The admin reset endpoint (`AdminController.java`). It only delegates to an admin service whose code is not part of this model.
- HTTP transport: routes, status codes (200, 404, 500), JSON bodies, Quarkus injection, and the test tenant's set-up and tear-down. The tests' answers are modelled as values; error bodies are modelled as the exception class and the message.
- The list endpoint (`SkillServiceTest.java:52-58`). Its test asserts only a 200 JSON answer.
- Transactions, concurrency and the database's own id generation. The model assigns ids from a counter that starts at 1.
- Integer widths. Tenant ids (Java `Integer`) and skill ids (Java `Long`) are unbounded integers. The model does no arithmetic on them, except that the id counter does not wrap.
- The version field and any other field of the skill records besides id, tenantId and name. The merge `{...skill, name}` keeps them all, like id and tenantId.
- React rendering and UI state: `useState`, redux `dispatch` and `useSelector`, i18n, PatternFly components.
- `useValidators`, `usePagableData`, `stringSorter` and `getPropsFromUrl`. Their code is not part of this model, so how validation results are shown and combined into `isValid` is not modelled.
- `SkillsPage.NameMustNotBeEmpty`: JavaScript's `length` counts UTF-16 code units and the model counts characters. The two agree on whether a name is empty, which is all the validator asks.
- `SkillErrors.UpdateNotFoundMessage`: the outcome of an update whose view has no id, under a matching tenant, is not fixed by any test or by the service code in this model; failing as not found with "null" rendered as the id is the model's choice, and the absent-id half of `SkillErrors.UpdateNotFoundMessageInjective` rests on it.
