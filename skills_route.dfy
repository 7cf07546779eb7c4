/** `GET` and `POST` of /api/skills. */
module SkillsRoute {
  import opened Wrappers
  import opened Js
  import opened Interfaces
  import opened Http
  import Store
  import SkillService

  /** The POST field check; `category` is not checked against the enum. */
  predicate FieldsPresent(d: Draft<SkillDocFields>) {
    !StrictlyUndefined(d.order) && TruthyString(d.fields.category) && TruthyString(d.fields.name)
  }

  const ListFailed := "Failed to get all skills"
  const Messages := PostMessages("No skill provided", "Skill is missing required fields", "Failed to create a new skill")

  function Get(listed: Result<seq<Skill>>): Response<seq<Skill>> {
    Reply(listed, ListFailed)
  }

  function Post(request: Request<Draft<SkillDocFields>>, created: Result<Skill>): Response<Skill> {
    Http.Post(FieldsPresent, Messages, request, created)
  }

  lemma {:induction false} PostCheckMatchesSchema(d: Draft<SkillDocFields>, oid: string)
    ensures SkillService.SkillSchema(Store.NewDocument(d, oid)) <==> FieldsPresent(d) && !d.order.Null?
  {
  }

  /** Any non-empty category passes the check, a `SkillCategory` key or not. */
  lemma {:induction false} PostAcceptsAnyCategory(order: int, category: string, name: string, created: Result<Skill>)
    requires category != "" && name != ""
    ensures Post(Parsed(Some(Draft(Val(order), SkillDocFields(Val(category), Val(name))))), created).status != 400
  {
  }
}
