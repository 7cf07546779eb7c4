/** `GET` and `POST` of /api/demos. */
module DemosRoute {
  import opened Wrappers
  import opened Js
  import opened Interfaces
  import opened Http
  import Store
  import DemoService

  /** The POST field check: arrays and `links` are tested for truthiness, so empty
      arrays pass. */
  predicate FieldsPresent(d: Draft<DemoDocFields>) {
    && !StrictlyUndefined(d.order)
    && TruthyString(d.fields.title) && TruthyString(d.fields.description)
    && TruthyObject(d.fields.technologies) && TruthyObject(d.fields.gallery) && TruthyObject(d.fields.links)
  }

  /** A failed listing answers with the projects route's message. */
  const ListFailed := "Failed to get all projects"
  const Messages := PostMessages("No demo provided", "Demo is missing required fields", "Failed to create a new demo")

  function Get(listed: Result<seq<Demo>>): Response<seq<Demo>> {
    Reply(listed, ListFailed)
  }

  function Post(request: Request<Draft<DemoDocFields>>, created: Result<Demo>): Response<Demo> {
    Http.Post(FieldsPresent, Messages, request, created)
  }

  /** Every body the route forwards, unless its `order` is `null`, is a document
      the schema admits; the route is stricter than the schema only on missing
      arrays, which the schema would default to `[]`. */
  lemma {:induction false} PostCheckImpliesSchema(d: Draft<DemoDocFields>, oid: string)
    requires FieldsPresent(d) && !d.order.Null?
    ensures DemoService.DemoSchema(Store.NewDocument(DemoService.WithArrayDefaults(d), oid))
  {
  }

  lemma {:induction false} SchemaImpliesPostCheck(d: Draft<DemoDocFields>, oid: string)
    requires DemoService.DemoSchema(Store.NewDocument(DemoService.WithArrayDefaults(d), oid))
    requires !d.fields.technologies.Undefined? && !d.fields.gallery.Undefined?
    ensures FieldsPresent(d)
  {
  }

  /** A demo with no technologies and no images passes the check. */
  lemma {:induction false} PostAcceptsEmptyArrays(order: int, title: string, description: string, links: Links, created: Result<Demo>)
    requires title != "" && description != ""
    ensures Post(Parsed(Some(Draft(Val(order), DemoDocFields(Val(title), Val(description), Val([]), Val([]), Val(links))))), created).status != 400
  {
  }
}
