/** `GET` and `POST` of /api/educations. */
module EducationsRoute {
  import opened Wrappers
  import opened Js
  import opened Interfaces
  import opened Http
  import Store
  import EducationModel
  import EducationService

  /** The POST field check as written: `graduationYear` and `gpa` are tested for
      truthiness, so 0 is refused for either, while `order` is tested with
      `=== undefined`. */
  predicate FieldsPresent(d: Draft<EducationDocFields>) {
    && !StrictlyUndefined(d.order)
    && TruthyString(d.fields.school) && TruthyString(d.fields.degree)
    && TruthyInt(d.fields.graduationYear) && TruthyReal(d.fields.gpa)
  }

  /** The check with the numeric fields tested like `order`, as the schema and the
      mapper treat them. */
  predicate FieldsPresentCorrected(d: Draft<EducationDocFields>) {
    && !StrictlyUndefined(d.order)
    && TruthyString(d.fields.school) && TruthyString(d.fields.degree)
    && !StrictlyUndefined(d.fields.graduationYear) && !StrictlyUndefined(d.fields.gpa)
  }

  const ListFailed := "Failed to get all educations"
  const Messages := PostMessages("No education provided", "Education is missing required fields", "Failed to create a new education")

  function Get(listed: Result<seq<Education>>): Response<seq<Education>> {
    Reply(listed, ListFailed)
  }

  /** The handler as written. */
  function Post(request: Request<Draft<EducationDocFields>>, created: Result<Education>): (r: Response<Education>)
    ensures r.status == 400 <==> request.Parsed? && (request.json.None? || !FieldsPresent(request.json.value))
    ensures r.status == 200 <==> request.Parsed? && request.json.Some? && FieldsPresent(request.json.value) && created.Ok?
  {
    Http.Post(FieldsPresent, Messages, request, created)
  }

  /** The handler with the corrected check. */
  function PostCorrected(request: Request<Draft<EducationDocFields>>, created: Result<Education>): (r: Response<Education>)
    ensures r.status == 400 <==> request.Parsed? && (request.json.None? || !FieldsPresentCorrected(request.json.value))
    ensures r.status == 200 <==>
      request.Parsed? && request.json.Some? && FieldsPresentCorrected(request.json.value) && created.Ok?
  {
    Http.Post(FieldsPresentCorrected, Messages, request, created)
  }

  /** A valid education with `gpa` 0: the schema admits it and the mapper accepts
      the stored document, yet the route as written answers 400. */
  lemma {:induction false} PostRejectsZeroGpa(oid: string, created: Result<Education>)
    requires oid != ""
    ensures var d := Draft(Val(0), EducationDocFields(Val("s"), Val("d"), Val(2020), Val(0.0)));
      && EducationModel.EducationSchema(Store.NewDocument(d, oid))
      && EducationService.MapEducation(Some(Store.NewDocument(d, oid))).Ok?
      && Post(Parsed(Some(d)), created).status == 400
  {
  }

  /** The corrected route lets through every body the schema admits. */
  lemma {:induction false} PostCorrectedAdmitsSchema(d: Draft<EducationDocFields>, oid: string, created: Result<Education>)
    requires EducationModel.EducationSchema(Store.NewDocument(d, oid))
    ensures PostCorrected(Parsed(Some(d)), created).status != 400
  {
  }

  /** Whatever the route as written lets through, the corrected route does too. */
  lemma {:induction false} CorrectedIsWeaker(d: Draft<EducationDocFields>)
    requires FieldsPresent(d)
    ensures FieldsPresentCorrected(d)
  {
  }
}
