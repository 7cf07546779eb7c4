/** `GET` and `POST` of /api/projects. The service call's outcome is a parameter:
    for `GET` the listing (a failed connection included), for `POST` the creation
    of the forwarded body. */
module ProjectsRoute {
  import opened Wrappers
  import opened Js
  import opened Interfaces
  import opened Http
  import Store
  import ProjectModel

  /** The POST field check: `order` only has to be not `=== undefined`, so 0 and
      even `null` pass; `name` and `link` must be truthy. */
  predicate FieldsPresent(d: Draft<ProjectDocFields>) {
    !StrictlyUndefined(d.order) && TruthyString(d.fields.name) && TruthyString(d.fields.link)
  }

  const ListFailed := "Failed to get all projects"
  const Messages := PostMessages("No project provided", "Project is missing required fields", "Failed to create a new project")

  function Get(listed: Result<seq<Project>>): Response<seq<Project>> {
    Reply(listed, ListFailed)
  }

  /** `created` is what `createOneProject` returns for the forwarded body. */
  function Post(request: Request<Draft<ProjectDocFields>>, created: Result<Project>): Response<Project> {
    Http.Post(FieldsPresent, Messages, request, created)
  }

  /** The route's check and the Project schema agree except on a `null` order,
      which the route lets through and the schema refuses (a 500). */
  lemma {:induction false} PostCheckMatchesSchema(d: Draft<ProjectDocFields>, oid: string)
    ensures ProjectModel.ProjectSchema(Store.NewDocument(d, oid)) <==> FieldsPresent(d) && !d.order.Null?
  {
  }

  /** A project with `order` 0 passes the check. */
  lemma {:induction false} PostAcceptsZeroOrder(name: string, link: string, created: Result<Project>)
    requires name != "" && link != ""
    ensures Post(Parsed(Some(Draft(Val(0), ProjectDocFields(Val(name), Val(link))))), created).status != 400
  {
  }
}
