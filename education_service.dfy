/** The education service: the document mapper and the CRUD operations over the
    Educations collection. */
module EducationService {
  import opened Wrappers
  import opened Js
  import opened Interfaces
  import opened Store
  import opened EducationModel

  const InvalidEducation := "Invalid education document"

  /** `mapEducationDocumentToEducation`: `order`, `graduationYear` and `gpa` are
      tested with `== undefined`, so 0 passes for each; `id`, `school` and `degree`
      must be non-empty strings. */
  function MapEducation(doc: Option<Document<EducationDocFields>>): (r: Result<Education>)
    ensures r.Ok? <==>
      && doc.Some? && TruthyString(doc.value.id) && !LooselyUndefined(doc.value.order)
      && TruthyString(doc.value.fields.school) && TruthyString(doc.value.fields.degree)
      && !LooselyUndefined(doc.value.fields.graduationYear) && !LooselyUndefined(doc.value.fields.gpa)
    ensures r.Ok? ==> r.value.id == doc.value.id.value && r.value.order == doc.value.order.value
    ensures r.Ok? ==> r.value.fields == EducationFields(
      doc.value.fields.school.value, doc.value.fields.degree.value,
      doc.value.fields.graduationYear.value, doc.value.fields.gpa.value)
    ensures r.Err? ==> r.error == InvalidEducation
  {
    if doc.None? then Err(InvalidEducation)
    else
      var d := doc.value;
      if || !TruthyString(d.id) || LooselyUndefined(d.order)
         || !TruthyString(d.fields.school) || !TruthyString(d.fields.degree)
         || LooselyUndefined(d.fields.graduationYear) || LooselyUndefined(d.fields.gpa)
      then Err(InvalidEducation)
      else Ok(Entity(d.id.value, d.order.value, EducationFields(
        d.fields.school.value, d.fields.degree.value, d.fields.graduationYear.value, d.fields.gpa.value)))
  }

  function MapStoredEducation(doc: Document<EducationDocFields>): Result<Education> {
    MapEducation(Some(doc))
  }

  /** An education written to a document and mapped back is recovered exactly when
      its `id`, `school` and `degree` are non-empty; zero numbers survive. */
  lemma {:induction false} EducationRoundTrip(oid: string, e: Education)
    ensures MapEducation(Some(Stored(oid, e, EducationDoc))) ==
      if e.id != "" && e.fields.school != "" && e.fields.degree != "" then Ok(e) else Err(InvalidEducation)
  {
  }

  /** Whatever the Education schema admits on creation, the mapper accepts. */
  lemma {:induction false} CreatedEducationMaps(draft: Draft<EducationDocFields>, oid: string)
    requires oid != "" && EducationSchema(NewDocument(draft, oid))
    ensures MapEducation(Some(NewDocument(draft, oid))).Ok?
    ensures MapEducation(Some(NewDocument(draft, oid))).value.id == oid
  {
  }

  class EducationService {
    var educations: seq<Document<EducationDocFields>>

    constructor (connection: seq<Document<EducationDocFields>>)
      ensures educations == connection
    {
      educations := connection;
    }

    /** `new EducationService(connection)`: throws when there is no connection. */
    static method Connect(connection: Option<seq<Document<EducationDocFields>>>) returns (r: Result<EducationService>)
      ensures r.Err? <==> connection.None?
      ensures r.Err? ==> r.error == "No connection to the database"
      ensures r.Ok? ==> fresh(r.value) && r.value.educations == connection.value
    {
      if connection.None? {
        r := Err("No connection to the database");
      } else {
        var service := new EducationService(connection.value);
        r := Ok(service);
      }
    }

    /** `getAllEducations`: every education, ascending by `order`. */
    method GetAllEducations() returns (r: Result<seq<Education>>)
      ensures r.Ok? <==> forall i :: 0 <= i < |educations| ==> MapStoredEducation(educations[i]).Ok?
      ensures r.Ok? ==> SortedByOrder(r.value) && |r.value| == |educations|
      ensures r.Ok? ==> multiset(r.value) == multiset(MapAll(educations, MapStoredEducation).value)
      ensures r.Err? ==> r.error == "Failed to get all educations"
    {
      r := Rewrap(ListSorted(educations, MapStoredEducation), "Failed to get all educations");
    }

    /** `createOneEducation`: inserted only when the schema admits it. */
    method CreateOneEducation(draft: Draft<EducationDocFields>, oid: string) returns (r: Result<Education>)
      requires FreshOid(educations, oid)
      modifies this
      ensures educations ==
        if EducationSchema(NewDocument(draft, oid)) then old(educations) + [NewDocument(draft, oid)] else old(educations)
      ensures r.Ok? <==> EducationSchema(NewDocument(draft, oid))
      ensures r.Ok? ==> r.value == Entity(oid, draft.order.value, EducationFields(
        draft.fields.school.value, draft.fields.degree.value,
        draft.fields.graduationYear.value, draft.fields.gpa.value))
      ensures r.Err? ==> r.error == "Failed to create an education"
    {
      var doc := NewDocument(draft, oid);
      if EducationSchema(doc) {
        educations := educations + [doc];
        r := Rewrap(MapEducation(Some(doc)), "Failed to create an education");
      } else {
        r := Err("Failed to create an education");
      }
    }

    /** `deleteOneEducation`: an unknown id fails and changes nothing. */
    method DeleteOneEducation(id: string) returns (r: Result<Education>)
      modifies this
      ensures FindById(old(educations), id).None? ==>
        educations == old(educations) && r == Err("Failed to delete an education")
      ensures FindById(old(educations), id).Some? ==>
        var k := FindById(old(educations), id).value;
        && educations == RemoveAt(old(educations), k)
        && r == Rewrap(MapEducation(Some(old(educations)[k])), "Failed to delete an education")
    {
      var found := FindById(educations, id);
      var deleted: Option<Document<EducationDocFields>> := None;
      if found.Some? {
        deleted := Some(educations[found.value]);
        educations := RemoveAt(educations, found.value);
      }
      r := Rewrap(MapEducation(deleted), "Failed to delete an education");
    }

    /** `updateOneEducation`: no validators run; the result is the mapped document
        as it was before the update. An unknown id fails and changes nothing. */
    method UpdateOneEducation(e: Education) returns (r: Result<Education>)
      modifies this
      ensures FindById(old(educations), e.id).None? ==>
        educations == old(educations) && r == Err("Failed to update an education")
      ensures FindById(old(educations), e.id).Some? ==>
        var k := FindById(old(educations), e.id).value;
        && educations == old(educations)[k := Stored(old(educations)[k].oid, e, EducationDoc)]
        && r == Rewrap(MapEducation(Some(old(educations)[k])), "Failed to update an education")
    {
      var found := FindById(educations, e.id);
      var before: Option<Document<EducationDocFields>> := None;
      if found.Some? {
        var k := found.value;
        before := Some(educations[k]);
        educations := educations[k := Stored(educations[k].oid, e, EducationDoc)];
      }
      r := Rewrap(MapEducation(before), "Failed to update an education");
    }
  }
}
